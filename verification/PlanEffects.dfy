/** What a plan does: the requests its commands open, the order they run in, where
    the photo gate stops them, and what the end of the plan offers or books. */
module PlanEffects {
  import opened Types
  import opened Policies
  import opened Commands
  import opened Booking
  import opened Lifecycle
  import opened BookingRuns
  import opened BookingDates
  import opened PlanGate
  import CommandAnswers
  import opened BookingEffects
  import Phones
  import opened Reorder

  // ------------------------------------------------------------ opening a request

  /** A handoff between two people: the other side is named, or the donor says so. */
  predicate IsHandoff(cmd: Command)
    requires cmd.Donate? || cmd.ReceiveFromDonor?
  {
    Given(cmd.otherPhone) || (cmd.Donate? && cmd.direct)
  }

  /** What a donor offers is given away unless he says it is not, and in a handoff
      it works unless he says so; a receiver says nothing about it. */
  predicate ItemOpened(cmd: Command, i: ItemInput, t: Item)
    requires cmd.Donate? || cmd.ReceiveFromDonor?
  {
    && t.kind == i.kind && t.description == i.description && t.quantity == i.quantity
    && t.needsDisassembly == None && t.smallWhole == None && t.ovenType == None && t.evacuation == None
    && if cmd.ReceiveFromDonor? then t.free == None && t.working == None
       else && t.free == Some(cmd.free != Some(false))
            && t.working == (if cmd.working.Some? then cmd.working else if IsHandoff(cmd) then Some(true) else None)
  }

  predicate ItemsOpened(cmd: Command, items: seq<Item>)
    requires cmd.Donate? || cmd.ReceiveFromDonor?
  {
    && |items| == |cmd.items|
    && forall k :: 0 <= k < |items| ==> ItemOpened(cmd, cmd.items[k], items[k])
  }

  /** The message holds the number of the other side. */
  predicate Numbers(cmd: Command, rd: Reading, other: Phone)
    requires cmd.Donate? || cmd.ReceiveFromDonor?
  {
    Given(cmd.otherPhone) && rd.phoneSupplied && Phones.CanonicalPhone(cmd.otherPhone.value) == Some(other)
  }

  /** A donation has to be called one, unless it is a handoff. */
  predicate IsCalledFor(cmd: Command, rd: Reading)
    requires cmd.Donate? || cmd.ReceiveFromDonor?
  {
    cmd.Donate? ==> rd.donationWords || IsHandoff(cmd)
  }

  /** The sender's own side of a new request; a donor has approved by asking. */
  predicate OpensSide(p: Party, cmd: Command, phone: Phone, time: int)
    requires cmd.Donate? || cmd.ReceiveFromDonor?
  {
    && p.phone == phone && p.role == (if cmd.Donate? then Donor else Receiver)
    && p.approvedAt == (if cmd.Donate? then Some(time) else None)
    && p.approvedBy == (if cmd.Donate? then Some(phone) else None)
    && p.name == None && p.settlement == None && p.address == None && p.floor == None && p.scheduleDate == None
  }

  /** The other side, when the message numbers it. */
  predicate OpensOther(p: Party, cmd: Command, phone: Phone, rd: Reading)
    requires cmd.Donate? || cmd.ReceiveFromDonor?
  {
    && Numbers(cmd, rd, p.phone) && p.role == (if cmd.Donate? then Receiver else Donor)
    && (p.approvedAt.Some? <==> cmd.Donate? && p.phone == phone) && p.scheduleDate == None
    && p.name == (if cmd.Donate? && Given(cmd.otherName) then cmd.otherName else None)
  }

  predicate NewRequest(r: Request, cmd: Command, phone: Phone, rd: Reading, time: int)
    requires cmd.Donate? || cmd.ReceiveFromDonor?
  {
    && r.status == Collecting && r.proposed == None && r.runDate == None && r.earliest == None && r.photos == []
    && r.origin == (if cmd.Donate? && !IsHandoff(cmd) then Donation else Direct)
    && ItemsOpened(cmd, r.items)
    && 1 <= |r.parties| <= 2 && OpensSide(r.parties[0], cmd, phone, time)
    && (|r.parties| == 2 <==> Given(cmd.otherPhone))
    && (|r.parties| == 2 ==> OpensOther(r.parties[1], cmd, phone, rd))
    && (r.representsBoth <==> |r.parties| == 2 && r.parties[1].phone == phone)
  }

  lemma OpenedItems(cmd: Command)
    requires cmd.Donate? || cmd.ReceiveFromDonor?
    ensures ItemsOpened(cmd, OpeningItems(cmd, IsHandoff(cmd)))
  {}

  lemma OneWayToOpen(cmd: Command, a: seq<Item>, b: seq<Item>)
    requires (cmd.Donate? || cmd.ReceiveFromDonor?) && ItemsOpened(cmd, a) && ItemsOpened(cmd, b)
    ensures a == b
  {
    forall k | 0 <= k < |a| ensures a[k] == b[k] {
      assert ItemOpened(cmd, cmd.items[k], a[k]) && ItemOpened(cmd, cmd.items[k], b[k]);
    }
  }

  /** What a donation, or a request from a donor, opens: nothing when the items
      cannot be moved, and it is refused when it is not called for or when the
      number of the other side cannot be used. */
  lemma OpensExactly(phone: Phone, cmd: Command, rd: Reading, time: int, items: seq<Item>)
    requires (cmd.Donate? || cmd.ReceiveFromDonor?) && ItemsOpened(cmd, items)
    ensures var v := Opened(phone, cmd, rd, time);
            var movable := CommandAnswers.Movable(items, false);
            && (v.Changed? <==>
                  && IsCalledFor(cmd, rd) && movable
                  && (Given(cmd.otherPhone) ==> exists other :: Numbers(cmd, rd, other)))
            && (v.Unsaved? <==> IsCalledFor(cmd, rd) && !movable)
            && (v.Changed? ==> NewRequest(v.request, cmd, phone, rd, time) && v.request.items == items)
  {
    OpenedItems(cmd);
    OneWayToOpen(cmd, items, OpeningItems(cmd, IsHandoff(cmd)));
    CommandAnswers.MovableExactly(items, false);
    if Given(cmd.otherPhone) && SuppliedPhone(cmd.otherPhone.value, rd).Some? {
      assert Numbers(cmd, rd, SuppliedPhone(cmd.otherPhone.value, rd).value);
    }
  }

  /** Saved, whatever the version and the order of its sides. */
  predicate SameRequest(r: Request, q: Request) {
    q == r.(version := q.version, parties := q.parties) && multiset(q.parties) == multiset(r.parties)
  }

  /** Only request id has changed, or is new, and nothing else in the store. */
  predicate OnlyRequest(s: State, t: State, id: nat) {
    && t.requests.Keys == s.requests.Keys + {id}
    && (forall k :: k in s.requests && k != id ==> t.requests[k] == s.requests[k])
    && t == s.(requests := t.requests, last := t.last)
  }

  lemma SavesSame(s: State, id: nat, r: Request)
    ensures OnlyRequest(s, Save(s, id, r), id) && SameRequest(r, Save(s, id, r).requests[id])
    ensures Save(s, id, r).last == s.last
  {
    SameParties(r.parties);
  }

  lemma CreatesSame(s: State, r: Request)
    ensures var t := Create(s, r);
            t.last == s.last + 1 && OnlyRequest(s, t, t.last) && SameRequest(r, t.requests[t.last])
  {
    var id := s.last + 1;
    var s1 := Save(s.(last := id), id, r);
    SavesSame(s.(last := id), id, r);
    SavesSame(s1, id, s1.requests[id]);
  }

  /** A new request takes the next number and leaves every other as it was; a
      similar one that is open is gone on with instead, unless the message says
      that this is another. */
  lemma StoresOpened(s: State, r: Request, rd: Reading)
    ensures var o := OpenVerdict(s, r, rd);
            var similar := rd.duplicate.Some? && rd.duplicate.value in s.requests && !rd.newRequestWords;
            var id := if similar then rd.duplicate.value else s.last + 1;
            && !o.handoff && o.request == Some(id) && OnlyRequest(s, o.state, id)
            && o.state.last == (if similar then s.last else s.last + 1)
            && SameRequest(if similar then s.requests[id] else r, o.state.requests[id])
  {
    if rd.duplicate.Some? && rd.duplicate.value in s.requests && !rd.newRequestWords {
      SavesSame(s, rd.duplicate.value, s.requests[rd.duplicate.value]);
    } else {
      CreatesSame(s, r);
      var t := Create(s, r);
      SavesSame(t, t.last, t.requests[t.last]);
    }
  }

  /** A receiver joins a request that is offered and whose photo it has been shown. */
  lemma ClaimsExactly(s: State, number: nat, phone: Phone, rd: Reading)
    ensures var o := Claim(s, number, phone, rd);
            && (o.Ok? <==>
                  && number in s.requests && rd.presented
                  && s.requests[number].status in {Collecting, Available, AwaitingApproval}
                  && forall i :: 0 <= i < |s.requests[number].parties| ==>
                       s.requests[number].parties[i].role == Donor && s.requests[number].parties[i].phone != phone)
            && (o.Ok? ==>
                  && o.request == Some(number) && !o.handoff && number in o.state.requests
                  && var r, q := s.requests[number], o.state.requests[number];
                     && q.status == AwaitingApproval && q.items == r.items
                     && multiset(q.parties) == multiset(r.parties + [NewParty(Receiver, phone, false, 0)]))
  {
    if number in s.requests {
      var r := s.requests[number];
      SameParties(r.parties + [NewParty(Receiver, phone, false, 0)]);
      forall i | 0 <= i < |r.parties| ensures r.parties[i].role != Receiver <==> r.parties[i].role == Donor {}
    }
  }

  // --------------------------------------------------------------- the command loop

  /** After these the plan goes no further: a human takes over, or the request it
      is about has been rejected. */
  predicate Stops(t: State, request: Option<nat>, handoff: bool) {
    handoff || (request.Some? && request.value in t.requests && t.requests[request.value].status == Status.Rejected)
  }

  /** The loop takes its commands in order: some first ones and then the rest, on
      the store and with the request they leave, unless they failed or stopped. */
  lemma {:induction false} LoopSplits(
    s: State, phone: Phone, a: seq<Planned>, b: seq<Planned>, now: Now, time: int, request: Option<nat>)
    ensures var o := ExecuteAll(s, phone, a, now, time, request);
            ExecuteAll(s, phone, a + b, now, time, request) ==
              if o.Failed? || (a != [] && Stops(o.state, o.request, o.handoff)) then o
              else ExecuteAll(o.state, phone, b, now, time, o.request)
    decreases |a|
  {
    if a == [] {
      assert a + b == b;
    } else {
      assert (a + b)[0] == a[0] && (a + b)[1..] == a[1..] + b;
      var o := Execute(s, phone, a[0].0, a[0].1, now, time);
      if o.Ok? {
        var current := if o.request.Some? then o.request else request;
        if !Stops(o.state, current, o.handoff) {
          LoopSplits(o.state, phone, a[1..], b, now, time, current);
          if a[1..] == [] {
            assert ExecuteAll(o.state, phone, a[1..], now, time, current) == Ok(o.state, current, false);
          }
        }
      }
    }
  }

  /** One command: the plan goes on about the request it answered with, if any. */
  lemma LoopOfOne(s: State, phone: Phone, c: Planned, now: Now, time: int, request: Option<nat>)
    ensures var o := Execute(s, phone, c.0, c.1, now, time);
            ExecuteAll(s, phone, [c], now, time, request) ==
              if o.Failed? then o
              else Ok(o.state, if o.request.Some? then o.request else request, o.handoff)
  {
    assert [c][1..] == [];
    var o := Execute(s, phone, c.0, c.1, now, time);
    if o.Ok? {
      var current := if o.request.Some? then o.request else request;
      assert ExecuteAll(o.state, phone, [], now, time, current) == Ok(o.state, current, false);
    }
  }

  /** The commands about a known request need it to be neither closed nor
      cancelled, and save what they leave. */
  predicate AboutRequest(cmd: Command) {
    !cmd.AskStatus? && !cmd.Seek? && !cmd.Donate? && !cmd.ReceiveFromDonor? && !cmd.Interest?
  }

  lemma RunsOnTarget(s: State, phone: Phone, cmd: Command, rd: Reading, now: Now, time: int, id: nat)
    requires AboutRequest(cmd) && rd.target == Some(id)
    ensures var o := Execute(s, phone, cmd, rd, now, time);
            var listed := id in s.requests && s.requests[id].status !in {Closed, Cancelled};
            && (o.Failed? <==> !listed || Applied(s.requests[id], phone, cmd, rd, now, time).Refused?)
            && (o.Ok? ==>
                  match Applied(s.requests[id], phone, cmd, rd, now, time)
                  case Changed(r, handoff) =>
                    && o.request == Some(id) && o.handoff == handoff && OnlyRequest(s, o.state, id)
                    && o.state.last == s.last && SameRequest(r, o.state.requests[id])
                  case _ => o == Ok(s, None, false))
  {
    if id in s.requests {
      var v := Applied(s.requests[id], phone, cmd, rd, now, time);
      if v.Changed? { SavesSame(s, id, v.request); }
    }
  }

  /** Without a request, asking, looking around and going on change nothing; a
      question of a borderline area goes to a human with a request of its own. */
  lemma RunsWithoutTarget(s: State, phone: Phone, cmd: Command, rd: Reading, now: Now, time: int)
    requires cmd.AskStatus? || cmd.Seek? || (AboutRequest(cmd) && rd.target.None?)
    ensures var o := Execute(s, phone, cmd, rd, now, time);
            if cmd.AskStatus? || cmd.Seek? || cmd.Next? then o == Ok(s, None, false)
            else if !cmd.Escalate? then o.Failed?
            else if !cmd.borderline then o == Ok(s, None, true)
            else && o.Ok? && o.handoff && o.request == Some(s.last + 1) && OnlyRequest(s, o.state, s.last + 1)
                 && o.state.requests[s.last + 1].status == Human
                 && o.state.requests[s.last + 1].parties == [NewParty(Donor, phone, false, 0)]
  {
    if AboutRequest(cmd) && cmd.Escalate? && cmd.borderline {
      var r := Request(0, Collecting, Donation, false, false, [], [NewParty(Donor, phone, false, 0)], [],
                       None, None, None, map[]);
      var t := Create(s, r);
      CreatesSame(s, r);
      SavesSame(t, t.last, t.requests[t.last].(status := Human));
    }
  }
}
