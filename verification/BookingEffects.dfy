/** What the other transactions do to the store, and what the customer sees of it. */
module BookingEffects {
  import opened Types
  import opened Policies
  import opened Commands
  import opened Booking
  import opened Lifecycle
  import opened BookingRuns
  import opened BookingDates
  import CommandAnswers
  import PlanGate

  // ------------------------------------------------------------ one request saved

  /** Request id is saved with another status and everything else as it was. */
  predicate StatusSaved(s: State, t: State, id: nat, status: Status) {
    && id in s.requests && t == s.(requests := t.requests)
    && t.requests.Keys == s.requests.Keys
    && (forall k :: k in s.requests && k != id ==> t.requests[k] == s.requests[k])
    && var r, q := s.requests[id], t.requests[id];
       && q == r.(version := r.version + 1, status := status, parties := q.parties)
       && multiset(q.parties) == multiset(r.parties)
  }

  /** A save only puts the sides in their order. */
  lemma SameParties(ps: seq<Party>)
    ensures multiset(ByRole(ps)) == multiset(ps)
  {
    if |ps| == 2 { assert ps == [ps[0], ps[1]]; }
  }

  lemma SavesStatus(s: State, id: nat, status: Status)
    requires id in s.requests
    ensures StatusSaved(s, Save(s, id, s.requests[id].(status := status)), id, status)
  {
    SameParties(s.requests[id].parties);
  }

  predicate Asks(s: State, id: nat, phone: Phone, q: Question) {
    id in s.requests && NextQuestion(s.requests[id], phone) == Some(q)
  }

  /** A failed turn hands a request to a human, unless it is over: then nothing
      changes. Nobody is asked anything while a human has it. */
  lemma HandsOverExactly(s: State, id: nat, phone: Phone)
    ensures var t := HandOver(s, id);
            if id in s.requests && s.requests[id].status !in {Closed, Cancelled}
            then StatusSaved(s, t, id, Human) && Asks(t, id, phone, WithHuman)
            else t == s
  {
    if id in s.requests { SavesStatus(s, id, Human); }
  }

  /** The admin puts it back in the version he has seen. */
  lemma ResumesExactly(s: State, id: nat, version: nat, phone: Phone)
    ensures var t := AdminResume(s, id, version);
            if id in s.requests && s.requests[id].status == Human && s.requests[id].version == version
            then StatusSaved(s, t, id, Collecting) && !Asks(t, id, phone, WithHuman)
            else t == s
  {
    if id in s.requests { SavesStatus(s, id, Collecting); }
  }

  /** A completed transport keeps its slot. */
  lemma CompletesExactly(s: State, id: nat, version: nat, d: Date)
    ensures var t := AdminComplete(s, id, version);
            && BookedOn(t, d) == BookedOn(s, d)
            && if id in s.requests && s.requests[id].status == Coordinated && s.requests[id].version == version
               then StatusSaved(s, t, id, Closed) else t == s
  {
    if id in s.requests { SavesStatus(s, id, Closed); }
  }

  /** A town outside the area closes a request that is still open to changes. */
  lemma RejectsExactly(s: State, id: nat, phone: Phone)
    ensures var t := RejectOutside(s, id);
            var open := {Collecting, Available, AwaitingApproval, WaitingCapacity, Human};
            if id in s.requests && s.requests[id].status in open
            then StatusSaved(s, t, id, Status.Rejected) && Asks(t, id, phone, RequestClosed)
            else t == s
  {
    if id in s.requests { SavesStatus(s, id, Status.Rejected); }
  }

  // ------------------------------------------------------------------- photos

  predicate DonorOf(r: Request, phone: Phone) {
    exists i :: 0 <= i < |r.parties| && r.parties[i].role == Donor && r.parties[i].phone == phone
  }

  lemma DonorInParties(r: Request, phone: Phone)
    ensures DonorOf(r, phone) <==> exists p :: p in r.parties && p.role == Donor && p.phone == phone
  {
    if i :| 0 <= i < |r.parties| && r.parties[i].role == Donor && r.parties[i].phone == phone {
      assert r.parties[i] in r.parties;
    }
  }

  /** The donor's photo is on the request, once, and the request needs none any
      more; while nobody receives it, it is available to receivers. */
  lemma AddsPhotoExactly(s: State, id: nat, phone: Phone, photo: string)
    ensures var t := AddPhoto(s, id, phone, photo);
            if id in s.requests && !Protected(s.requests[id]) && DonorOf(s.requests[id], phone)
            then
              && id in t.requests && photo in t.requests[id].photos && !PlanGate.PhotoGate(t.requests[id])
              && (photo in s.requests[id].photos ==> t.requests[id].photos == s.requests[id].photos)
              && (photo !in s.requests[id].photos ==> t.requests[id].photos == s.requests[id].photos + [photo])
              && t.requests[id].items == s.requests[id].items && t.requests[id].proposed == s.requests[id].proposed
              && t.requests[id].status == (if |s.requests[id].parties| == 1 then Available else s.requests[id].status)
            else t == s
  {
    if id in s.requests { DonorInParties(s.requests[id], phone); }
  }

  // ------------------------------------------------------------- cancellations

  /** Asking to cancel, for now or for good, frees the slot and drops the
      proposal; for now keeps the request, a week later at the earliest. */
  lemma CancelsExactly(
    r: Request, phone: Phone, ref: Option<nat>, choice: CancelChoice, rd: Reading, now: Now, time: int)
    ensures var v := Applied(r, phone, Cancel(ref, choice), rd, now, time);
            && (v.Changed? <==>
                  && HasPhone(r.parties, phone)
                  && match choice
                     case Ask => rd.cancelWords
                     case Final => rd.finalWords
                     case NextWeek => r.status == CancelPending && rd.rescheduleWords)
            && (v.Changed? ==>
                  && !v.handoff && v.request.proposed.None? && v.request.parties == ClearedDates(r.parties)
                  && v.request.items == r.items
                  && var d := if r.runDate.Some? then r.runDate.value else NextTuesday(now);
                     match choice
                     case Ask => v.request.status == CancelPending && v.request.runDate.None?
                                 && v.request.earliest == Some(d + 7)
                     case Final => v.request.status == Cancelled && v.request.runDate.None?
                                   && v.request.earliest == r.earliest
                     case NextWeek => v.request.status == AwaitingApproval && v.request.runDate == r.runDate
                                      && v.request.earliest == r.earliest)
  {
    CommandAnswers.OnRequest(r, phone);
  }
}
