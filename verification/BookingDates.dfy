/** Which date a request is offered and when it is booked, for each caller. Only
    today is special: a date already past is booked like any other, since nothing
    compares the proposed date with today. */
module BookingDates {
  import opened Types
  import opened Policies
  import opened Commands
  import opened Booking
  import opened Lifecycle
  import opened BookingRuns

  /** The run of d as it is, or as it will be created. */
  function RunOf(s: State, d: Date): Run {
    if d in s.runs then s.runs[d] else Run(s.standard, true)
  }

  /** The run is open and has a free slot. */
  predicate HasRoom(s: State, d: Date) {
    RunOf(s, d).open && |BookedOn(s, d)| < RunOf(s, d).capacity
  }

  /** The run is open and booked to its capacity. */
  predicate BookedOut(s: State, d: Date) {
    RunOf(s, d).open && |BookedOn(s, d)| >= RunOf(s, d).capacity
  }

  /** The admin has said no to the next slot of a run that is booked out. */
  predicate NextSlotDenied(s: State, d: Date) {
    var next := RunOf(s, d).capacity + 1;
    BookedOut(s, d) && next <= MAX_CAPACITY && (d, next) in s.approvals && s.approvals[(d, next)] == Denied
  }

  /** A slot of d is taken by a coordinated or completed transport on d, and kept
      for whoever has yet to answer an offer of d. */
  lemma SlotsExactly(s: State, d: Date, id: nat)
    ensures id in BookedOn(s, d) <==>
              id in s.requests && s.requests[id].runDate == Some(d) && s.requests[id].status in {Coordinated, Closed}
    ensures id in HeldOn(s, d) <==>
              id in s.requests && s.requests[id].proposed == Some(d) && s.requests[id].status == AwaitingApproval
  {}

  /** The Tuesday itself, until the evening. */
  predicate OnItsDay(d: Date, now: Now) {
    d == now.day && Tuesday(d) && now.hour < 20
  }

  /** Both sides are ready and approved d, which is the proposal, and no older
      date is kept. */
  predicate Agreed(r: Request, d: Date) {
    && r.runDate.None? && r.proposed == Some(d) && ReadyToProposeSchedule(r)
    && forall p :: p in r.parties ==> p.scheduleDate == Some(d)
  }

  predicate BookedFor(s: State, id: nat, d: Date) {
    id in s.requests && Books(s.requests[id], d)
  }

  // --------------------------------------------------------------- coordination

  /** The answer of coordinate, for every request, date and caller. */
  lemma CoordinatesExactly(s: State, r: Request, d: Date, now: Now, allowed: bool, sameDay: bool)
    ensures var result := Coordinate(s, r, now, allowed, sameDay).2;
            && (result.Booked? && r.proposed == Some(d) <==>
                  Agreed(r, d) && allowed && HasRoom(s, d) && (OnItsDay(d, now) ==> sameDay))
            && (result.IsSameDay? && r.proposed == Some(d) <==> Agreed(r, d) && allowed && OnItsDay(d, now) && !sameDay)
            && (result.CapacityDenied? && r.proposed == Some(d) <==>
                  Agreed(r, d) && allowed && NextSlotDenied(s, d) && (OnItsDay(d, now) ==> sameDay))
            && (result.NotReady? <==> !allowed || r.proposed.None? || !Agreed(r, r.proposed.value))
  {
    NextTuesdayMeaning(now);
    SameBooked(s, Prepared(s, d));
  }

  /** What it leaves: a booking moves the proposal to the run date, a full run
      makes the request wait, and nothing else changes it. */
  lemma CoordinateLeaves(s: State, r: Request, now: Now, allowed: bool, sameDay: bool)
    ensures var (t, q, result) := Coordinate(s, r, now, allowed, sameDay);
            && t.requests == s.requests && t.last == s.last && t.standard == s.standard
            && (forall d :: RunOf(t, d) == RunOf(s, d))
            && match result
               case Booked => q == r.(status := Coordinated, runDate := r.proposed, proposed := None)
               case Full => q == r.(status := WaitingCapacity)
               case CapacityDenied => q == r.(status := WaitingCapacity)
               case _ => q == r && t == s
  {}

  /** The waitlist. */
  lemma WaitlistBooksExactly(s: State, id: nat, d: Date, now: Now, allowed: bool)
    requires StoreInv(s) && id in s.requests && !IsBooked(s.requests[id])
    ensures BookedFor(Retry(s, id, now, allowed), id, d) <==>
              && s.requests[id].status == WaitingCapacity && Agreed(s.requests[id], d)
              && allowed && HasRoom(s, d) && !OnItsDay(d, now)
  {
    var r := s.requests[id];
    CoordinatesExactly(s, r, d, now, allowed, false);
    CoordinateLeaves(s, r, now, allowed, false);
    if r.proposed.None? { ProposeKeeps(s, r, now); }
  }

  /** The admin's coordination. */
  lemma AdminBooksExactly(s: State, id: nat, version: nat, d: Date, now: Now, allowed: bool, sameDay: bool)
    requires id in s.requests && !IsBooked(s.requests[id])
    ensures BookedFor(AdminBook(s, id, version, now, allowed, sameDay), id, d) <==>
              && s.requests[id].version == version && Agreed(s.requests[id], d)
              && allowed && HasRoom(s, d) && (OnItsDay(d, now) ==> sameDay)
  {
    CoordinatesExactly(s, s.requests[id], d, now, allowed, sameDay);
    CoordinateLeaves(s, s.requests[id], now, allowed, sameDay);
  }

  /** What is not booked the waitlist leaves as it is. */
  lemma WaitlistOtherwise(s: State, id: nat, d: Date, now: Now, allowed: bool)
    requires id in s.requests && s.requests[id].proposed == Some(d)
    requires !BookedFor(Retry(s, id, now, allowed), id, d)
    ensures Retry(s, id, now, allowed).requests == s.requests
  {
    CoordinateLeaves(s, s.requests[id], now, allowed, false);
  }

  /** And the admin the whole store. */
  lemma AdminOtherwise(s: State, id: nat, d: Date, version: nat, now: Now, allowed: bool, sameDay: bool)
    requires id in s.requests && s.requests[id].proposed == Some(d)
    requires !BookedFor(AdminBook(s, id, version, now, allowed, sameDay), id, d)
    ensures AdminBook(s, id, version, now, allowed, sameDay) == s
  {
    CoordinateLeaves(s, s.requests[id], now, allowed, sameDay);
  }

  // --------------------------------------------------------------- offering a date

  /** The next date to offer cannot be: its run is closed, it is today, or its
      bookings and open offers fill it. */
  predicate NoDateFree(s: State, r: Request, now: Now) {
    var d := ProposalDay(now, r.earliest);
    || !RunOf(s, d).open
    || OnItsDay(d, now)
    || |BookedOn(s, d)| + |HeldOn(s, d)| >= RunOf(s, d).capacity
  }

  /** A date is offered exactly when one is free, and it is the first that is
      neither past nor before the customer's earliest. */
  lemma NoDateExactly(s: State, r: Request, now: Now)
    ensures var (t, date) := Propose(s, r, now);
            && (date.None? <==> NoDateFree(s, r, now))
            && (date.Some? ==> date.value == ProposalDay(now, r.earliest))
            && t.requests == s.requests && forall d :: RunOf(t, d) == RunOf(s, d)
  {
    NextTuesdayMeaning(now);
    var d := ProposalDay(now, r.earliest);
    SameBooked(s, Prepared(s, d));
    assert HeldOn(Prepared(s, d), d) == HeldOn(s, d);
  }

  /** A ready request without a proposal, or whose proposal has passed. */
  predicate Due(r: Request, now: Now) {
    ReadyToProposeSchedule(r) && (r.proposed.Some? ==> r.proposed.value < NextTuesday(now))
  }

  predicate Unapproved(r: Request) {
    forall p :: p in r.parties ==> p.scheduleDate.None?
  }

  /** d is offered to it anew: both sides have to approve. */
  predicate OfferedAnew(s: State, t: State, id: nat, d: Date) {
    && id in t.requests && Holds(t.requests[id], d) && Unapproved(t.requests[id])
    && HeldOn(t, d) == HeldOn(s, d) + {id}
  }

  lemma SavedOffer(s: State, u: State, id: nat, r: Request, d: Date)
    requires s.requests == u.requests && id in s.requests && r.proposed == Some(d) && r.status == AwaitingApproval
    requires r.parties == ClearedDates(s.requests[id].parties)
    ensures OfferedAnew(s, Save(u, id, r), id, d)
  {
    var q := Stored(r);
    forall p | p in q.parties ensures p.scheduleDate.None? {
      assert p in r.parties;
      var i :| 0 <= i < |r.parties| && r.parties[i] == p;
    }
  }

  /** The proposal half of a plan's tail: a due request is offered the date that
      is free, or waits for one; any other request is left alone. */
  lemma TailOffersExactly(s: State, id: nat, now: Now)
    requires id in s.requests
    ensures var r, t := s.requests[id], OfferDate(s, id, now);
            && (Due(r, now) && !NoDateFree(s, r, now) ==> OfferedAnew(s, t, id, ProposalDay(now, r.earliest)))
            && (Due(r, now) && NoDateFree(s, r, now) ==>
                  t.requests[id].status == WaitingCapacity && t.requests[id].proposed == r.proposed)
            && (!Due(r, now) ==> t == s)
  {
    var r := s.requests[id];
    NoDateExactly(s, r, now);
    if Due(r, now) && !NoDateFree(s, r, now) {
      var (u, date) := Propose(s, r, now);
      ProposalDayIsLeast(now, r.earliest);
      assert r.proposed != date;
      var q := r.(proposed := date, status := AwaitingApproval, parties := ClearedDates(r.parties));
      SavedOffer(s, u, id, q, date.value);
    }
  }

  /** The waitlist offers a date to whoever waits without one. */
  lemma WaitlistOffersExactly(s: State, id: nat, now: Now, allowed: bool)
    requires id in s.requests && s.requests[id].status == WaitingCapacity && s.requests[id].proposed.None?
    ensures var r, t := s.requests[id], Retry(s, id, now, allowed);
            && (!NoDateFree(s, r, now) ==> OfferedAnew(s, t, id, ProposalDay(now, r.earliest)))
            && (NoDateFree(s, r, now) ==> t.requests == s.requests)
  {
    var r := s.requests[id];
    NoDateExactly(s, r, now);
    if !NoDateFree(s, r, now) {
      var (u, date) := Propose(s, r, now);
      var q := r.(proposed := date, status := AwaitingApproval, parties := ClearedDates(r.parties));
      SavedOffer(s, u, id, q, date.value);
    }
  }

  // ------------------------------------------------------- the tail of a plan

  /** No new date: the old proposal and its approvals stay. */
  lemma KeepsOldDate(s: State, id: nat, d: Date)
    requires id in s.requests && RequestInv(s.requests[id]) && Agreed(s.requests[id], d)
    ensures var r := s.requests[id];
            var t := Save(s, id, r.(status := WaitingCapacity));
            && Agreed(t.requests[id], d) && !IsBooked(t.requests[id])
            && (HasRoom(t, d) <==> HasRoom(s, d))
  {
    var r := s.requests[id];
    BookedAfterSave(s, id, r.(status := WaitingCapacity), d);
    assert id !in BookedOn(s, d);
  }

  /** A new date: every approval of the old one is dropped. */
  lemma DropsOldDate(t: State, id: nat)
    requires id in t.requests && |t.requests[id].parties| == 2 && Unapproved(t.requests[id])
    ensures forall d :: !Agreed(t.requests[id], d)
  {
    assert t.requests[id].parties[0] in t.requests[id].parties;
  }

  /** The proposal half of the tail leaves d agreed and with room exactly when it
      was, and d has not passed or no new date could be offered. */
  lemma OfferOnDate(s: State, id: nat, d: Date, now: Now)
    requires StoreInv(s) && id in s.requests && !IsBooked(s.requests[id])
    ensures var t := OfferDate(s, id, now);
            && id in t.requests && !IsBooked(t.requests[id])
            && (Agreed(t.requests[id], d) && HasRoom(t, d) <==>
                  && Agreed(s.requests[id], d) && HasRoom(s, d)
                  && (NextTuesday(now) <= d || NoDateFree(s, s.requests[id], now)))
  {
    var r := s.requests[id];
    assert RequestInv(r);
    TailOffersExactly(s, id, now);
    if Due(r, now) {
      if NoDateFree(s, r, now) { WaitsOnDate(s, id, d, now); } else { NewDateOffered(s, id, now); }
    }
  }

  lemma NewDateOffered(s: State, id: nat, now: Now)
    requires id in s.requests && Due(s.requests[id], now) && !NoDateFree(s, s.requests[id], now)
    ensures var t := OfferDate(s, id, now);
            id in t.requests && !IsBooked(t.requests[id]) && forall d :: !Agreed(t.requests[id], d)
  {
    var t := OfferDate(s, id, now);
    TailOffersExactly(s, id, now);
    NoDateExactly(s, s.requests[id], now);
    assert |t.requests[id].parties| == 2;
    DropsOldDate(t, id);
  }

  lemma WaitsOnDate(s: State, id: nat, d: Date, now: Now)
    requires id in s.requests && RequestInv(s.requests[id])
    requires Due(s.requests[id], now) && NoDateFree(s, s.requests[id], now)
    ensures var t := OfferDate(s, id, now);
            && !IsBooked(t.requests[id])
            && (Agreed(t.requests[id], d) && HasRoom(t, d) <==> Agreed(s.requests[id], d) && HasRoom(s, d))
  {
    var r := s.requests[id];
    NoDateExactly(s, r, now);
    var u := Propose(s, r, now).0;
    SameBooked(s, u);
    assert HasRoom(u, d) <==> HasRoom(s, d);
    assert OfferDate(s, id, now) == Save(u, id, r.(status := WaitingCapacity));
    if Agreed(r, d) { KeepsOldDate(u, id, d); }
  }

  lemma BookDateBooks(t: State, id: nat, d: Date, now: Now, allowed: bool)
    requires id in t.requests && !IsBooked(t.requests[id])
    ensures BookedFor(BookDate(t, id, now, allowed), id, d) <==>
              Agreed(t.requests[id], d) && HasRoom(t, d) && allowed && !OnItsDay(d, now)
  {
    CoordinatesExactly(t, t.requests[id], d, now, allowed, false);
    CoordinateLeaves(t, t.requests[id], now, allowed, false);
  }

  /** An agreed request that finds no slot waits, with its date and its approvals;
      one that cannot be booked yet stays as it is. */
  lemma BookDateOtherwise(t: State, id: nat, d: Date, now: Now, allowed: bool)
    requires id in t.requests && !IsBooked(t.requests[id]) && t.requests[id].proposed == Some(d)
    requires !BookedFor(BookDate(t, id, now, allowed), id, d)
    ensures var r, u := t.requests[id], BookDate(t, id, now, allowed);
            if Agreed(r, d) && allowed && !OnItsDay(d, now)
            then id in u.requests && u.requests[id] == Stored(r.(status := WaitingCapacity))
            else u == t
  {
    CoordinatesExactly(t, t.requests[id], d, now, allowed, false);
    CoordinateLeaves(t, t.requests[id], now, allowed, false);
  }

  /** A plan's tail books the agreed date of the request it is about, and a date
      already past only when no new one can be offered in its place, for the old
      proposal and its approvals then stay. */
  lemma TailBooksExactly(s: State, id: nat, d: Date, now: Now, allowed: bool)
    requires StoreInv(s) && id in s.requests && !IsBooked(s.requests[id])
    ensures BookedFor(Tail(s, id, now, allowed), id, d) <==>
              && Agreed(s.requests[id], d) && HasRoom(s, d) && allowed && !OnItsDay(d, now)
              && (NextTuesday(now) <= d || NoDateFree(s, s.requests[id], now))
  {
    OfferOnDate(s, id, d, now);
    BookDateBooks(OfferDate(s, id, now), id, d, now, allowed);
  }

  // ------------------------------------------------------------- other requests

  /** Nothing but request id may have changed. */
  predicate OthersStay(s: State, t: State, id: nat) {
    forall k :: k in s.requests && k != id ==> k in t.requests && t.requests[k] == s.requests[k]
  }

  lemma WaitlistTouchesOne(s: State, id: nat, now: Now, allowed: bool)
    ensures OthersStay(s, Retry(s, id, now, allowed), id)
  {
    if id in s.requests {
      NoDateExactly(s, s.requests[id], now);
      CoordinateLeaves(s, s.requests[id], now, allowed, false);
    }
  }

  lemma AdminTouchesOne(s: State, id: nat, version: nat, now: Now, allowed: bool, sameDay: bool)
    ensures OthersStay(s, AdminBook(s, id, version, now, allowed, sameDay), id)
  {
    if id in s.requests { CoordinateLeaves(s, s.requests[id], now, allowed, sameDay); }
  }

  lemma OfferTouchesOne(s: State, id: nat, now: Now)
    requires id in s.requests
    ensures OthersStay(s, OfferDate(s, id, now), id)
  {
    NoDateExactly(s, s.requests[id], now);
  }

  lemma BookTouchesOne(s: State, id: nat, now: Now, allowed: bool)
    requires id in s.requests
    ensures OthersStay(s, BookDate(s, id, now, allowed), id)
  {
    CoordinateLeaves(s, s.requests[id], now, allowed, false);
  }

  lemma TailTouchesOne(s: State, id: nat, now: Now, allowed: bool)
    requires id in s.requests
    ensures OthersStay(s, Tail(s, id, now, allowed), id)
  {
    OfferTouchesOne(s, id, now);
    BookTouchesOne(OfferDate(s, id, now), id, now, allowed);
  }
}
