/** A run from an empty store to a booking on a date already past: a customer
    moves something for himself, agrees to the date on that very Tuesday, which
    needs the admin, and the admin, or the waitlist, comes a week later. */
module BookingPastRun {
  import opened Types
  import opened Policies
  import opened Commands
  import opened Booking
  import opened Lifecycle
  import opened BookingRuns
  import opened BookingDates
  import Phones

  /** The run of day 16 is closed; the one of day 2 is created when it is asked for. */
  const START := State(10, 0, map[], map[16 := Run(1, false)], map[])

  /** Who moves what: a phone, a name and a street as they are stored. */
  datatype Mover = Mover(phone: Phone, name: string, street: string, thing: string)

  predicate Plain(m: Mover) {
    Phones.Canonical(m.phone) && m.name != "" && m.street != "" && Trim(m.street) == m.street
  }

  function Quiet(): Reading {
    Reading(None, true, false, None, true, false, false, false, Allowed(BEIT_SHEAN), false, false, false, false, false,
            None, None, None, false, true, true, false, false, false)
  }

  function About(): Reading {
    Quiet().(target := Some(1))
  }

  function Donation(m: Mover): Command {
    Donate([ItemInput(Bed, m.thing, 1)], Some("0" + m.phone), None, true, Some(true), Some(true))
  }

  function Where(m: Mover, role: Role): Command {
    Details(None, Some(role), Some(m.name), Some("town"), Some(m.street), None)
  }

  // ------------------------------------------------------------ the requests

  function Thing(m: Mover): Item {
    Item(Bed, m.thing, 1, Some(true), Some(true), None, None, None, None)
  }

  function Half(m: Mover, role: Role, named: bool, told: bool, date: Option<Date>): Party {
    NewParty(role, m.phone, true, 0).(
      name := if named then Some(m.name) else None, settlement := if told then Some(BEIT_SHEAN) else None,
      address := if told then Some(m.street) else None, scheduleDate := date)
  }

  /** told: of how many sides the place is known. */
  function Opening(m: Mover, version: nat, told: nat): Request {
    Request(version, Collecting, Direct, false, true, [Thing(m)],
            [Half(m, Donor, told > 0, told > 0, None), Half(m, Receiver, told > 0, told > 1, None)],
            [], None, None, None, map[])
  }

  function OnOffer(m: Mover, version: nat): Request {
    Opening(m, version, 2).(status := AwaitingApproval, proposed := Some(2))
  }

  function Agreeing(m: Mover, version: nat): Request {
    var r := OnOffer(m, version);
    var c := Consent(m.phone, 2, FactsOf(r));
    r.(parties := [Half(m, Donor, true, true, Some(2)), Half(m, Receiver, true, true, Some(2))],
       consents := map[Donor := c, Receiver := c])
  }

  function Early(r: Request): State {
    START.(last := 1, requests := map[1 := r])
  }

  function Late(r: Request): State {
    Early(r).(runs := map[16 := Run(1, false), 2 := Run(10, true)])
  }

  // ------------------------------------------------------- day 0: it is opened

  lemma OneThing(m: Mover)
    ensures TotalQuantity([Thing(m)]) == 1
    ensures ItemError([Thing(m)], false).None? && ItemError([Thing(m)], true).None?
  {
    assert [Thing(m)][1..] == [];
  }

  lemma OpensForHimself(m: Mover)
    requires Plain(m)
    ensures Opened(m.phone, Donation(m), Quiet(), 0) == Changed(Opening(m, 0, 0), false)
  {
    Phones.RoundTrip(m.phone);
    OneThing(m);
    assert SuppliedPhone("0" + m.phone, Quiet()) == Some(m.phone);
    assert OpeningItems(Donation(m), true) == [Thing(m)];
  }

  lemma DonationRuns(m: Mover)
    requires Plain(m)
    ensures Execute(START, m.phone, Donation(m), Quiet(), Now(0, 12), 0) == Ok(Early(Opening(m, 3, 0)), Some(1), false)
  {
    OpensForHimself(m);
    OpeningStored(m);
  }

  lemma OpeningStored(m: Mover)
    ensures OpenVerdict(START, Opening(m, 0, 0), Quiet()) == Ok(Early(Opening(m, 3, 0)), Some(1), false)
  {
    assert Save(START.(last := 1), 1, Opening(m, 0, 0)) == Early(Opening(m, 1, 0));
    assert Save(Early(Opening(m, 1, 0)), 1, Opening(m, 1, 0)) == Early(Opening(m, 2, 0));
    assert Save(Early(Opening(m, 2, 0)), 1, Opening(m, 2, 0)) == Early(Opening(m, 3, 0));
  }

  lemma SideFound(m: Mover, r: Request, k: nat)
    requires k < 2 && r == Opening(m, r.version, k)
    ensures DetailsSide(r, m.phone, Where(m, r.parties[k].role)) == Some(k)
    ensures OwnParty(r.parties, m.phone, None).Some?
  {
    assert Mine(r.parties[k], m.phone, Some(r.parties[k].role));
  }

  lemma SideWritten(m: Mover, r: Request, k: nat)
    requires Plain(m) && k < 2 && r == Opening(m, r.version, k)
    ensures Written(r.parties, true, k, m.phone, Where(m, r.parties[k].role), Some(BEIT_SHEAN))
            == Opening(m, r.version, k + 1).parties
  {
    var ps := Written(r.parties, true, k, m.phone, Where(m, r.parties[k].role), Some(BEIT_SHEAN));
    var qs := Opening(m, r.version, k + 1).parties;
    assert ps[0] == qs[0] && ps[1] == qs[1];
  }

  /** A town in the area and a street on a request without a proposal. */
  lemma DetailsWritten(r: Request, phone: Phone, cmd: Command, k: nat, ps: seq<Party>)
    requires cmd.Details? && Given(cmd.settlement) && r.status == Collecting && Invalidated(r) == r
    requires DetailsSide(r, phone, cmd) == Some(k)
    requires Written(r.parties, r.representsBoth, k, phone, cmd, Some(BEIT_SHEAN)) == ps && |ps| == 2
    ensures ApplyDetails(r, phone, cmd, About()) == Changed(r.(parties := ps), false)
  {}

  lemma NothingToInvalidate(m: Mover, r: Request, k: nat)
    requires k < 3 && r == Opening(m, r.version, k)
    ensures ClearedDates(r.parties) == r.parties && Invalidated(r) == r
  {
    var ps := ClearedDates(r.parties);
    assert ps[0] == r.parties[0] && ps[1] == r.parties[1];
  }

  lemma TellsSide(m: Mover, r: Request, k: nat)
    requires Plain(m) && k < 2 && r == Opening(m, r.version, k)
    ensures ApplyDetails(r, m.phone, Where(m, r.parties[k].role), About())
            == Changed(Opening(m, r.version, k + 1), false)
  {
    SideFound(m, r, k);
    SideWritten(m, r, k);
    NothingToInvalidate(m, r, k);
    DetailsWritten(r, m.phone, Where(m, r.parties[k].role), k, Opening(m, r.version, k + 1).parties);
  }

  lemma TellsInStore(m: Mover, s: State, r: Request, k: nat)
    requires Plain(m) && k < 2 && r == Opening(m, r.version, k)
    requires 1 in s.requests && s.requests[1] == r
    ensures Targeted(s, 1, m.phone, Where(m, r.parties[k].role), About(), Now(0, 12), 0)
            == Ok(Save(s, 1, Opening(m, r.version, k + 1)), Some(1), false)
  {
    TellsSide(m, r, k);
    SideFound(m, r, k);
  }

  lemma DetailsTarget(s: State, m: Mover, role: Role)
    ensures Execute(s, m.phone, Where(m, role), About(), Now(0, 12), 0)
            == Targeted(s, 1, m.phone, Where(m, role), About(), Now(0, 12), 0)
  {}

  lemma DetailsRun(m: Mover, version: nat, k: nat)
    requires Plain(m) && k < 2
    ensures var s, role := Early(Opening(m, version, k)), if k == 0 then Donor else Receiver;
            Execute(s, m.phone, Where(m, role), About(), Now(0, 12), 0)
            == Ok(Early(Opening(m, version + 1, k + 1)), Some(1), false)
  {
    var r := Opening(m, version, k);
    TellsInStore(m, Early(r), r, k);
    DetailsTarget(Early(r), m, r.parties[k].role);
    DetailsSaved(m, version, k);
  }

  lemma DetailsSaved(m: Mover, version: nat, k: nat)
    requires k < 2
    ensures Save(Early(Opening(m, version, k)), 1, Opening(m, version, k + 1)) == Early(Opening(m, version + 1, k + 1))
  {}

  function Opener(m: Mover): Event {
    PlanFinished(m.phone, map[], [(Donation(m), Quiet()), (Where(m, Donor), About()), (Where(m, Receiver), About())],
                 Now(0, 12), 0, true)
  }

  lemma CommandsRun(m: Mover)
    requires Plain(m)
    ensures ExecuteAll(START, m.phone, Opener(m).cmds, Now(0, 12), 0, None)
            == Ok(Early(Opening(m, 5, 2)), Some(1), false)
  {
    DonationRuns(m);
    DetailsRun(m, 3, 0);
    DetailsRun(m, 4, 1);
    var cmds := Opener(m).cmds;
    var last := [(Where(m, Receiver), About())];
    assert cmds[1..] == [(Where(m, Donor), About())] + last && cmds[1..][1..] == last && last[1..] == [];
    assert ExecuteAll(Early(Opening(m, 4, 1)), m.phone, last, Now(0, 12), 0, Some(1))
        == Ok(Early(Opening(m, 5, 2)), Some(1), false);
    assert ExecuteAll(Early(Opening(m, 3, 0)), m.phone, cmds[1..], Now(0, 12), 0, Some(1))
        == Ok(Early(Opening(m, 5, 2)), Some(1), false);
  }

  lemma OpeningIsReady(m: Mover, version: nat)
    requires Plain(m)
    ensures ReadyToProposeSchedule(Opening(m, version, 2))
    ensures ReadyToProposeSchedule(OnOffer(m, version)) && ReadyToProposeSchedule(Agreeing(m, version))
  {
    OneThing(m);
  }

  /** The run is created with all its slots. */
  lemma FirstOfDay(s: State, r: Request, d: Date, now: Now)
    requires ProposalDay(now, r.earliest) == d && d != now.day && d !in s.runs && s.standard > 0
    requires BookedOn(s, d) == {} && HeldOn(s, d) == {}
    ensures Propose(s, r, now) == (Prepared(s, d), Some(d))
  {
    NextTuesdayMeaning(now);
    var t := Prepared(s, d);
    assert BookedOn(t, d) == {} && HeldOn(t, d) == {};
  }

  lemma DayTwoIsFree(m: Mover)
    ensures var s, r := Early(Opening(m, 5, 2)), Opening(m, 5, 2);
            Propose(s, r, Now(0, 12)) == (Late(r), Some(2))
  {
    var s := Early(Opening(m, 5, 2));
    assert BookedOn(s, 2) == {} && HeldOn(s, 2) == {};
    FirstOfDay(s, Opening(m, 5, 2), 2, Now(0, 12));
  }

  lemma Offers(s: State, r: Request, t: State, date: Date, now: Now)
    requires 1 in s.requests && s.requests[1] == r && NeedsProposal(r, now) && r.proposed.None?
    requires Propose(s, r, now) == (t, Some(date)) && ClearedDates(r.parties) == r.parties
    ensures OfferDate(s, 1, now) == Save(t, 1, r.(proposed := Some(date), status := AwaitingApproval))
  {}

  lemma NeedsFirstOffer(m: Mover)
    requires Plain(m)
    ensures NeedsProposal(Opening(m, 5, 2), Now(0, 12))
  {
    OpeningIsReady(m, 5);
  }

  lemma OfferSaved(m: Mover)
    ensures var r := Opening(m, 5, 2);
            Save(Late(r), 1, r.(proposed := Some(2), status := AwaitingApproval)) == Late(OnOffer(m, 6))
  {}

  lemma OfferIsSaved(m: Mover)
    requires Plain(m)
    ensures OfferDate(Early(Opening(m, 5, 2)), 1, Now(0, 12)) == Late(OnOffer(m, 6))
  {
    var r := Opening(m, 5, 2);
    DayTwoIsFree(m);
    NeedsFirstOffer(m);
    NothingToInvalidate(m, r, 2);
    Offers(Early(r), r, Late(r), 2, Now(0, 12));
    OfferSaved(m);
  }

  lemma OfferIsNotApproved(m: Mover, s: State)
    requires 1 in s.requests && s.requests[1] == OnOffer(m, 6)
    ensures BookDate(s, 1, Now(0, 12), true) == s
  {
    var r := OnOffer(m, 6);
    assert r.parties[0] in r.parties && r.parties[0].scheduleDate.None?;
  }

  /** The tail offers Tuesday, day 2. */
  lemma OffersTuesday(m: Mover)
    requires Plain(m)
    ensures Tail(Early(Opening(m, 5, 2)), 1, Now(0, 12), true) == Late(OnOffer(m, 6))
  {
    OfferIsSaved(m);
    OfferIsNotApproved(m, Late(OnOffer(m, 6)));
  }

  lemma Opens(m: Mover)
    requires Plain(m)
    ensures Step(START, Opener(m)) == Late(OnOffer(m, 6))
  {
    CommandsRun(m);
    OffersTuesday(m);
  }

  // ------------------------------------------ day 2, noon: he agrees to today

  function Agrees(m: Mover): Event {
    PlanFinished(m.phone, map[], [(ApproveSchedule(None, 2), Agreement())], Now(2, 12), 0, true)
  }

  lemma AgreementSaved(m: Mover)
    ensures Save(Late(OnOffer(m, 6)), 1, Agreeing(m, 6)) == Late(Agreeing(m, 7))
  {}

  function Agreement(): Reading {
    About().(explicitApproval := true)
  }

  lemma AgreementApplied(m: Mover)
    requires Plain(m)
    ensures Applied(OnOffer(m, 6), m.phone, ApproveSchedule(None, 2), Agreement(), Now(2, 12), 0)
            == Changed(Agreeing(m, 6), false)
  {
    var r := OnOffer(m, 6);
    assert Mine(r.parties[0], m.phone, None);
    assert AllDated(r.parties, m.phone, Some(2)) == Agreeing(m, 6).parties;
    ConsentsRecorded(m, r);
  }

  lemma AgreeingRuns(m: Mover)
    requires Plain(m)
    ensures Execute(Late(OnOffer(m, 6)), m.phone, ApproveSchedule(None, 2), Agreement(), Now(2, 12), 0)
            == Ok(Late(Agreeing(m, 7)), Some(1), false)
  {
    AgreementApplied(m);
    AgreementSaved(m);
  }

  lemma ConsentsRecorded(m: Mover, r: Request)
    requires r == OnOffer(m, 6)
    ensures Recorded(r, m.phone, 2) == Agreeing(m, 6).consents
  {
    var roles := RolesOf(r.parties, m.phone);
    assert r.parties[0] in r.parties && r.parties[1] in r.parties;
    assert roles == {Donor, Receiver};
  }

  /** On that very day only an admin may book it. */
  lemma NotToday(m: Mover)
    requires Plain(m)
    ensures Tail(Late(Agreeing(m, 7)), 1, Now(2, 12), true) == Late(Agreeing(m, 7))
  {}

  lemma OnlyCommand(s: State, phone: Phone, c: Planned, now: Now, t: State)
    requires Execute(s, phone, c.0, c.1, now, 0) == Ok(t, Some(1), false)
    requires 1 in t.requests && t.requests[1].status != Status.Rejected
    ensures ExecuteAll(s, phone, [c], now, 0, None) == Ok(t, Some(1), false)
  {
    assert [c][1..] == [];
  }

  lemma AgreesToday(m: Mover)
    requires Plain(m)
    ensures Step(Late(OnOffer(m, 6)), Agrees(m)) == Late(Agreeing(m, 7))
  {
    AgreeingRuns(m);
    OnlyCommand(Late(OnOffer(m, 6)), m.phone, Agrees(m).cmds[0], Now(2, 12), Late(Agreeing(m, 7)));
    NotToday(m);
  }

  // ----------------------------------------------------- day 10: it is booked

  lemma TwoSteps(s: State, a: Event, b: Event)
    ensures After(s, [a, b]) == Step(Step(s, a), b)
  {
    assert [a, b][1..] == [b] && [b][1..] == [];
    assert After(Step(s, a), [b]) == After(Step(Step(s, a), b), []);
  }

  lemma FourSteps(s: State, a: Event, b: Event, c: Event, d: Event)
    ensures After(s, [a, b, c, d]) == Step(Step(Step(Step(s, a), b), c), d)
  {
    assert [a, b, c, d][1..] == [b, c, d];
    assert [b, c, d][1..] == [c, d];
    assert After(Step(s, a), [b, c, d]) == After(Step(Step(s, a), b), [c, d]);
    TwoSteps(Step(Step(s, a), b), c, d);
  }

  lemma AgreedIsReachable(m: Mover)
    requires Plain(m)
    ensures Initial(START) && After(START, [Opener(m), Agrees(m)]) == Late(Agreeing(m, 7))
  {
    Opens(m);
    AgreesToday(m);
    TwoSteps(START, Opener(m), Agrees(m));
  }

  lemma AgreedIsSound(m: Mover)
    requires Plain(m)
    ensures StoreInv(Late(Agreeing(m, 7)))
  {
    AgreedIsReachable(m);
    InitialInv(START);
    AfterKeeps(START, [Opener(m), Agrees(m)]);
  }

  /** Both sides agreed to day 2, whose run has free slots. */
  lemma StillAgreed(m: Mover, r: Request)
    requires Plain(m) && (r == Agreeing(m, 7) || r == Waits(m))
    ensures !IsBooked(r) && Agreed(r, 2) && HasRoom(Late(r), 2)
  {
    OpeningIsReady(m, r.version);
    assert BookedOn(Late(r), 2) == {};
  }

  /** The admin coordinates it on day 10, for day 2. */
  lemma AdminBooksPast(m: Mover)
    requires Plain(m)
    ensures Initial(START)
    ensures BookedFor(AdminBook(After(START, [Opener(m), Agrees(m)]), 1, 7, Now(10, 12), true, false), 1, 2)
  {
    AgreedIsReachable(m);
    StillAgreed(m, Agreeing(m, 7));
    AdminBooksExactly(Late(Agreeing(m, 7)), 1, 7, 2, Now(10, 12), true, false);
  }

  /** Day 16, the next to offer, is closed. */
  lemma NothingFree(m: Mover, version: nat)
    ensures NoDateFree(Late(Agreeing(m, version)), Agreeing(m, version), Now(10, 12))
  {
    assert ProposalDay(Now(10, 12), None) == 16;
  }

  lemma TailBooks(s: State, r: Request, now: Now)
    requires StoreInv(s) && 1 in s.requests && s.requests[1] == r && !IsBooked(r) && 2 < now.day
    requires Agreed(r, 2) && NoDateFree(s, r, now) && HasRoom(s, 2)
    ensures BookedFor(Tail(s, 1, now, true), 1, 2)
  {
    TailBooksExactly(s, 1, 2, now, true);
  }

  /** Any later plan about it books it too, in its tail: day 16 is closed, so
      nothing is offered in place of day 2. */
  lemma TailBooksPast(m: Mover) returns (s: State)
    requires Plain(m)
    ensures Initial(START) && s == After(START, [Opener(m), Agrees(m)])
    ensures 1 in s.requests && BookedFor(Tail(s, 1, Now(10, 12), true), 1, 2)
  {
    s := Late(Agreeing(m, 7));
    AgreedIsSound(m);
    AgreedIsReachable(m);
    StillAgreed(m, Agreeing(m, 7));
    NothingFree(m, 7);
    TailBooks(s, Agreeing(m, 7), Now(10, 12));
  }

  /** While his town is not allowed that tail only lets it wait; the waitlist then
      books it, still for day 2. */
  function Asks(m: Mover): Event {
    PlanFinished(m.phone, map[], [(Next, About())], Now(10, 12), 0, false)
  }

  function Waits(m: Mover): Request {
    Agreeing(m, 9).(status := WaitingCapacity)
  }

  lemma NothingProposed(m: Mover)
    ensures Propose(Late(Agreeing(m, 8)), Agreeing(m, 8), Now(10, 12)) == (Late(Agreeing(m, 8)), None)
  {
    NothingFree(m, 8);
  }

  lemma NeedsNewOffer(m: Mover)
    requires Plain(m)
    ensures NeedsProposal(Agreeing(m, 8), Now(10, 12))
  {
    OpeningIsReady(m, 8);
  }

  lemma Waiting(s: State, r: Request, now: Now)
    requires 1 in s.requests && s.requests[1] == r && NeedsProposal(r, now) && Propose(s, r, now) == (s, None)
    ensures OfferDate(s, 1, now) == Save(s, 1, r.(status := WaitingCapacity))
  {}

  lemma WaitingSaved(m: Mover)
    ensures var r := Agreeing(m, 8); Save(Late(r), 1, r.(status := WaitingCapacity)) == Late(Waits(m))
  {}

  lemma NothingOffered(m: Mover)
    requires Plain(m)
    ensures OfferDate(Late(Agreeing(m, 8)), 1, Now(10, 12)) == Late(Waits(m))
  {
    NothingProposed(m);
    NeedsNewOffer(m);
    Waiting(Late(Agreeing(m, 8)), Agreeing(m, 8), Now(10, 12));
    WaitingSaved(m);
  }

  lemma AskRuns(m: Mover)
    ensures Execute(Late(Agreeing(m, 7)), m.phone, Next, About(), Now(10, 12), 0)
            == Ok(Late(Agreeing(m, 8)), Some(1), false)
  {
    assert Mine(Agreeing(m, 7).parties[0], m.phone, None);
    assert Save(Late(Agreeing(m, 7)), 1, Agreeing(m, 7)) == Late(Agreeing(m, 8));
  }

  lemma AsksRuns(m: Mover)
    ensures ExecuteAll(Late(Agreeing(m, 7)), m.phone, Asks(m).cmds, Now(10, 12), 0, None)
            == Ok(Late(Agreeing(m, 8)), Some(1), false)
  {
    AskRuns(m);
    OnlyCommand(Late(Agreeing(m, 7)), m.phone, (Next, About()), Now(10, 12), Late(Agreeing(m, 8)));
  }

  lemma WaitsForSlot(m: Mover)
    requires Plain(m)
    ensures Step(Late(Agreeing(m, 7)), Asks(m)) == Late(Waits(m))
  {
    AsksRuns(m);
    NothingOffered(m);
    assert Tail(Late(Agreeing(m, 8)), 1, Now(10, 12), false) == Late(Waits(m));
  }

  lemma WaitingIsSound(m: Mover)
    requires Plain(m)
    ensures StoreInv(Late(Waits(m)))
  {
    AgreedIsSound(m);
    WaitsForSlot(m);
    StepKeeps(Late(Agreeing(m, 7)), Asks(m));
  }

  lemma WaitlistBooks(m: Mover)
    requires Plain(m)
    ensures BookedFor(Retry(Late(Waits(m)), 1, Now(10, 12), true), 1, 2)
  {
    WaitingIsSound(m);
    StillAgreed(m, Waits(m));
    WaitlistBooksExactly(Late(Waits(m)), 1, 2, Now(10, 12), true);
  }

  lemma WaitlistBooksPast(m: Mover)
    requires Plain(m)
    ensures Initial(START)
    ensures var es := [Opener(m), Agrees(m), Asks(m), WaitlistTick(1, Now(10, 12), true)];
            BookedFor(After(START, es), 1, 2)
  {
    Opens(m);
    AgreesToday(m);
    WaitsForSlot(m);
    WaitlistBooks(m);
    TickRetries(Late(Waits(m)), Now(10, 12));
    FourSteps(START, Opener(m), Agrees(m), Asks(m), WaitlistTick(1, Now(10, 12), true));
  }

  lemma TickRetries(s: State, now: Now)
    ensures Step(s, WaitlistTick(1, now, true)) == Retry(s, 1, now, true)
  {}
}
