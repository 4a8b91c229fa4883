/** What each step of the outbox does to a row and to a match, told by the events
    themselves, and that a row that may be sent gets sent. */
module OutboxEffects {
  import opened Types
  import opened Outbox
  import opened OutboxTheorems

  // ------------------------------------------------------------- what rows become

  /** A claim comes as far as the row itself: it is a customer's text, formatted,
      still open, and no earlier row of the phone is. */
  predicate Reaches(b: Box, e: Event, i: nat)
    requires i < |b.rows|
  {
    && e.Claims? && e.row == i
    && !b.rows[i].alert && b.rows[i].format != AwaitingFormat
    && b.rows[i].state in {Pending, Sending, Uncertain, Failed}
    && forall j :: 0 <= j < i && b.rows[j].phone == b.rows[i].phone ==>
         b.rows[j].state in {Sent, Shadow, Simulation, RowState.Cancelled}
  }

  /** Nobody has claimed the row since it was created or put back. */
  predicate Waiting(b: Box, i: nat)
    requires i < |b.rows|
  {
    b.rows[i].state in {Pending, Failed}
  }

  /** A claim that starts an attempt. */
  predicate Attempts(b: Box, e: Event, i: nat)
    requires i < |b.rows|
  {
    Reaches(b, e, i) && Waiting(b, i) && b.rows[i].mode == Live && e.live && e.allowed
  }

  /** A claim that ends the row without a call, in its own mode. */
  predicate EndsInMode(b: Box, e: Event, i: nat)
    requires i < |b.rows|
  {
    Reaches(b, e, i) && Waiting(b, i) && b.rows[i].mode != Live
  }

  predicate ReportsAnswer(b: Box, e: Event, i: nat, answer: Answer) {
    && e.Reports? && e.attempt < |b.attempts| && b.attempts[e.attempt].row == i
    && b.attempts[e.attempt].phase == Answered(answer)
  }

  /** The admin's resolution of a row whose send job has failed. */
  predicate ResolvesTo(b: Box, e: Event, i: nat, outcome: Resolution)
    requires i < |b.rows|
  {
    && e.Resolves? && e.row == i && e.jobFailed && e.outcome == outcome
    && b.rows[i].state in {Uncertain, Pending, Failed}
  }

  /** The state a step gives row i, by what happened to it. */
  predicate Becomes(b: Box, e: Event, i: nat, s: RowState)
    requires i < |b.rows|
  {
    match s
    case Sent => ReportsAnswer(b, e, i, Accepted) || ResolvesTo(b, e, i, Delivered)
    case Pending => ReportsAnswer(b, e, i, Refused) || ResolvesTo(b, e, i, NotDelivered)
    case Uncertain => ReportsAnswer(b, e, i, Unknown) || (Reaches(b, e, i) && !Waiting(b, i))
    case Sending => Attempts(b, e, i)
    case Shadow => EndsInMode(b, e, i) && b.rows[i].mode == ShadowMode
    case Simulation => EndsInMode(b, e, i) && b.rows[i].mode == SimulationMode
    case Cancelled => ResolvesTo(b, e, i, CancelSend) || (e.Claims? && e.row == i && b.rows[i].alert)
    case Failed => false
  }

  predicate RowTold(b: Box, e: Event, i: nat, s: RowState, q: RowState)
    requires i < |b.rows|
  {
    (Becomes(b, e, i, s) ==> q == s) && (q != b.rows[i].state ==> Becomes(b, e, i, q))
  }

  lemma ClaimBecomes(b: Box, j: nat, live: bool, allowed: bool, i: nat, s: RowState)
    requires j < |b.rows| && i < |b.rows|
    ensures RowTold(b, Claims(j, live, allowed), i, s, Claim(b, j, live, allowed).0.rows[i].state)
  {}

  lemma ReportBecomes(b: Box, k: nat, i: nat, s: RowState)
    requires k < |b.attempts| && b.attempts[k].row < |b.rows| && b.attempts[k].phase.Answered? && i < |b.rows|
    ensures RowTold(b, Reports(k), i, s, Report(b, k).rows[i].state)
  {}

  lemma ResolveBecomes(b: Box, j: nat, jobFailed: bool, outcome: Resolution, i: nat, s: RowState)
    requires j < |b.rows| && i < |b.rows|
    ensures RowTold(b, Resolves(j, jobFailed, outcome), i, s, Resolve(b, j, jobFailed, outcome).rows[i].state)
  {}

  lemma OthersBecome(b: Box, e: Event, i: nat, s: RowState)
    requires Enabled(b, e) && !e.Claims? && !e.Reports? && !e.Resolves? && i < |b.rows|
    ensures i < |Step(b, e).rows| && RowTold(b, e, i, s, Step(b, e).rows[i].state)
  {}

  /** Every step leaves a row in the state its event tells, and changes no state
      its event does not. */
  lemma RowBecomesExactly(b: Box, e: Event, i: nat, s: RowState)
    requires Enabled(b, e) && i < |b.rows|
    ensures i < |Step(b, e).rows|
    ensures Becomes(b, e, i, s) ==> Step(b, e).rows[i].state == s
    ensures Step(b, e).rows[i].state != b.rows[i].state ==> Becomes(b, e, i, Step(b, e).rows[i].state)
  {
    StepMoves(b, e, i);
    match e
    case Claims(j, live, allowed) => ClaimBecomes(b, j, live, allowed, i, s);
    case Reports(k) => ReportBecomes(b, k, i, s);
    case Resolves(j, jobFailed, outcome) => ResolveBecomes(b, j, jobFailed, outcome, i, s);
    case _ => OthersBecome(b, e, i, s);
  }

  /** What else a step may change in a row: only the formatting of its text. */
  lemma FormatsExactly(b: Box, e: Event, i: nat)
    requires Enabled(b, e) && i < |b.rows|
    ensures i < |Step(b, e).rows|
    ensures var r, q, formatted := b.rows[i], Step(b, e).rows[i], e.Formatted? && e.row == i;
            && q == r.(state := q.state, format := q.format, alert := q.alert)
            && q.format == (if formatted then (if e.ok then Ready else FormatFailed) else r.format)
            && q.alert == (if formatted then e.alert else r.alert)
  {
    match e
    case Claims(j, live, allowed) => ClaimOnlyState(b, j, live, allowed, i);
    case Reports(k) => ReportOnlyState(b, k, i);
    case Resolves(j, jobFailed, outcome) => ResolveOnlyState(b, j, jobFailed, outcome, i);
    case _ =>
  }

  lemma ClaimOnlyState(b: Box, j: nat, live: bool, allowed: bool, i: nat)
    requires j < |b.rows| && i < |b.rows|
    ensures var rows := Claim(b, j, live, allowed).0.rows;
            |rows| == |b.rows| && rows[i] == b.rows[i].(state := rows[i].state)
  {}

  lemma ReportOnlyState(b: Box, k: nat, i: nat)
    requires k < |b.attempts| && b.attempts[k].row < |b.rows| && b.attempts[k].phase.Answered? && i < |b.rows|
    ensures var rows := Report(b, k).rows; |rows| == |b.rows| && rows[i] == b.rows[i].(state := rows[i].state)
  {}

  lemma ResolveOnlyState(b: Box, j: nat, jobFailed: bool, outcome: Resolution, i: nat)
    requires j < |b.rows| && i < |b.rows|
    ensures var rows := Resolve(b, j, jobFailed, outcome).rows;
            |rows| == |b.rows| && rows[i] == b.rows[i].(state := rows[i].state)
  {}

  /** A photo row is added for the match an offer leaves queued, once. */
  predicate AddsPhotoRow(b: Box, e: Event) {
    && e.Offers? && e.hasPhoto
    && (e.offer !in b.matches || b.matches[e.offer] in {WaitingPhoto, QueuedPhoto})
    && forall i :: 0 <= i < |b.rows| ==> b.rows[i].photoOf != Some(e.offer)
  }

  /** New rows are pending and come last, so they wait for all earlier ones. */
  lemma AddsRowsExactly(b: Box, e: Event)
    requires Enabled(b, e)
    ensures if e.Inserted?
            then Step(b, e).rows
                 == b.rows + [Row(e.phone, e.mode, Pending, if e.deferred then AwaitingFormat else Ready, false, None)]
            else if AddsPhotoRow(b, e)
            then Step(b, e).rows == b.rows + [Row(e.offer.1, e.mode, Pending, Ready, false, Some(e.offer))]
            else |Step(b, e).rows| == |b.rows|
  {
    if !e.Inserted? && !e.Offers? { SameRows(b, e); }
  }

  /** The attempts: one more for the claim that starts it, and how far each is. */
  lemma AttemptsExactly(b: Box, e: Event, k: nat)
    requires Enabled(b, e)
    ensures |Step(b, e).attempts| == |b.attempts| + if e.Claims? && Attempts(b, e, e.row) then 1 else 0
    ensures k == |b.attempts| && k < |Step(b, e).attempts| ==> Step(b, e).attempts[k] == Attempt(e.row, Claimed)
    ensures k < |b.attempts| ==>
              && Step(b, e).attempts[k].row == b.attempts[k].row
              && Step(b, e).attempts[k].phase ==
                   if (e.Calls? || e.GivesUp?) && e.attempt == k then Answered(e.answer)
                   else if (e.Reports? || e.Dies?) && e.attempt == k then Over
                   else b.attempts[k].phase
  {
    match e
    case Claims(j, live, allowed) => ClaimAttempts(b, j, live, allowed);
    case Resolves(_, _, _) => assert Step(b, e).attempts == b.attempts;
    case _ =>
  }

  lemma ClaimAttempts(b: Box, j: nat, live: bool, allowed: bool)
    requires j < |b.rows|
    ensures Claim(b, j, live, allowed).0.attempts
            == b.attempts + if Attempts(b, Claims(j, live, allowed), j) then [Attempt(j, Claimed)] else []
  {}

  /** The calls are recorded as they are made, and receivers as they are linked. */
  lemma CallsExactly(b: Box, e: Event)
    requires Enabled(b, e)
    ensures Step(b, e).calls == b.calls + if e.Calls? then [Call(b.attempts[e.attempt].row, e.answer)] else []
    ensures Step(b, e).receivers ==
              if e.Interests? then b.receivers[e.claim.0 := e.claim.1]
              else if e.LinksReceiver? then b.receivers[e.request := e.phone] else b.receivers
  {
    match e
    case Claims(j, live, allowed) =>
      assert Claim(b, j, live, allowed).0.calls == b.calls && Claim(b, j, live, allowed).0.receivers == b.receivers;
    case _ =>
  }

  // --------------------------------------------------------- what matches become

  /** The photo of match m reaches its receiver, as far as anyone will know: a
      report of an accepted call, a claim of a row created in shadow or
      simulation mode, or the admin's delivered. */
  predicate ShowsOn(b: Box, e: Event, m: Match, i: nat)
    requires i < |b.rows|
  {
    && b.rows[i].photoOf == Some(m)
    && (ReportsAnswer(b, e, i, Accepted) || EndsInMode(b, e, i) || ResolvesTo(b, e, i, Delivered))
  }

  predicate Shows(b: Box, e: Event, m: Match) {
    exists i :: 0 <= i < |b.rows| && ShowsOn(b, e, m, i)
  }

  /** An offer queues the photo of a new or waiting match. */
  predicate Queues(b: Box, e: Event, m: Match) {
    e.Offers? && e.offer == m && e.hasPhoto && (m !in b.matches || b.matches[m] == WaitingPhoto)
  }

  /** The state of m after a step, by its event. */
  function MatchAfter(b: Box, e: Event, m: Match): Option<MatchState> {
    if Queues(b, e, m) then Some(QueuedPhoto)
    else if e.Offers? && e.offer == m && m !in b.matches then Some(WaitingPhoto)
    else if m !in b.matches then None
    else if b.matches[m] == QueuedPhoto && Shows(b, e, m) then Some(Presented)
    else if e.Interests? && e.claim == m then Some(Interested)
    else if e.Interests? && e.claim.0 == m.0 then Some(Unavailable)
    else Some(b.matches[m])
  }

  predicate IsAfter(c: Box, m: Match, s: Option<MatchState>) {
    if s.None? then m !in c.matches else m in c.matches && c.matches[m] == s.value
  }

  lemma ClaimOnMatch(b: Box, e: Event, m: Match)
    requires Enabled(b, e) && e.Claims?
    ensures IsAfter(Step(b, e), m, MatchAfter(b, e, m))
  {
    if b.rows[e.row].photoOf == Some(m) && EndsInMode(b, e, e.row) { assert ShowsOn(b, e, m, e.row); }
  }

  lemma ReportOnMatch(b: Box, e: Event, m: Match)
    requires Enabled(b, e) && e.Reports?
    ensures IsAfter(Step(b, e), m, MatchAfter(b, e, m))
  {
    var i := b.attempts[e.attempt].row;
    if b.rows[i].photoOf == Some(m) && ReportsAnswer(b, e, i, Accepted) { assert ShowsOn(b, e, m, i); }
  }

  lemma ResolveOnMatch(b: Box, e: Event, m: Match)
    requires Enabled(b, e) && e.Resolves?
    ensures IsAfter(Step(b, e), m, MatchAfter(b, e, m))
  {
    if b.rows[e.row].photoOf == Some(m) && ResolvesTo(b, e, e.row, Delivered) { assert ShowsOn(b, e, m, e.row); }
  }

  /** Every step leaves a match in the state its event tells: a queued one is
      presented exactly when its photo is shown, and no cancellation, refusal or
      unknown answer changes any. */
  lemma MatchBecomesExactly(b: Box, e: Event, m: Match)
    requires Enabled(b, e)
    ensures IsAfter(Step(b, e), m, MatchAfter(b, e, m))
  {
    match e
    case Claims(_, _, _) => ClaimOnMatch(b, e, m);
    case Reports(_) => ReportOnMatch(b, e, m);
    case Resolves(_, _, _) => ResolveOnMatch(b, e, m);
    case _ =>
  }

  lemma CancellationChangesNoMatch(b: Box, i: nat, jobFailed: bool)
    requires i < |b.rows|
    ensures Step(b, Resolves(i, jobFailed, CancelSend)).matches == b.matches
  {
    var e := Resolves(i, jobFailed, CancelSend);
    var c := Step(b, e);
    forall m: Match ensures (m in c.matches <==> m in b.matches) && (m in c.matches ==> c.matches[m] == b.matches[m]) {
      MatchBecomesExactly(b, e, m);
    }
  }

  // ------------------------------------------------------------------ over runs

  predicate WasPresented(b: Box, m: Match) {
    m in b.matches && b.matches[m] in {Presented, Interested}
  }

  /** A match is presented or taken only after an event of the run that showed
      its photo. */
  lemma {:induction false} PresentedWasShown(bs: seq<Box>, es: seq<Event>, m: Match, n: nat) returns (k: nat)
    requires Run(bs, es) && bs[0] == EMPTY && n <= |es| && WasPresented(bs[n], m)
    ensures k < n && Shows(bs[k], es[k], m)
  {
    k := 0;
    if n == 0 {
      assert false;
    } else {
      MatchBecomesExactly(bs[n - 1], es[n - 1], m);
      if WasPresented(bs[n - 1], m) { k := PresentedWasShown(bs, es, m, n - 1); } else { k := n - 1; }
    }
  }

  /** So a receiver takes a match only after its photo was shown to it, and that
      was no cancellation. */
  lemma InterestFollowsAShowing(bs: seq<Box>, es: seq<Event>, n: nat) returns (k: nat)
    requires Run(bs, es) && bs[0] == EMPTY && n < |es| && es[n].Interests?
    ensures k < n && Shows(bs[k], es[k], es[n].claim)
  {
    k := PresentedWasShown(bs, es, es[n].claim, n);
  }

  /** An attempt knows an acceptance only from its own call. */
  lemma {:induction false} AcceptedWasCalled(bs: seq<Box>, es: seq<Event>, a: nat, n: nat) returns (k: nat)
    requires Run(bs, es) && bs[0] == EMPTY && n <= |es|
    requires a < |bs[n].attempts| && bs[n].attempts[a].phase == Answered(Accepted)
    ensures k < n && es[k] == Calls(a, Accepted)
  {
    k := 0;
    if n == 0 {
      assert false;
    } else {
      if es[n - 1] == Calls(a, Accepted) {
        k := n - 1;
      } else {
        AttemptBefore(bs[n - 1], es[n - 1], a);
        k := AcceptedWasCalled(bs, es, a, n - 1);
      }
    }
  }

  lemma AttemptBefore(b: Box, e: Event, a: nat)
    requires Enabled(b, e) && e != Calls(a, Accepted)
    requires a < |Step(b, e).attempts| && Step(b, e).attempts[a].phase == Answered(Accepted)
    ensures a < |b.attempts| && b.attempts[a].phase == Answered(Accepted)
  {
    if e.Claims? { ClaimedAttempts(b, e.row, e.live, e.allowed); }
  }

  lemma ClaimedAttempts(b: Box, i: nat, live: bool, allowed: bool)
    requires i < |b.rows|
    ensures Claim(b, i, live, allowed).0.attempts in {b.attempts, b.attempts + [Attempt(i, Claimed)]}
  {}

  // ------------------------------------------------------------------- progress

  /** A live row that waits, with every earlier row of its phone ended. */
  predicate MayBeSent(b: Box, i: nat) {
    i < |b.rows| && Attempts(b, Claims(i, true, true), i)
  }

  /** It is claimed, called and reported: three steps end it as sent. */
  lemma SendsRow(b: Box, i: nat) returns (bs: seq<Box>, es: seq<Event>)
    requires MayBeSent(b, i)
    ensures Run(bs, es) && bs[0] == b && |es| == 3
    ensures es == [Claims(i, true, true), Calls(|b.attempts|, Accepted), Reports(|b.attempts|)]
    ensures bs[3].calls == b.calls + [Call(i, Accepted)]
    ensures |bs[3].rows| == |b.rows| && bs[3].receivers == b.receivers
    ensures forall j :: 0 <= j < |b.rows| ==>
              bs[3].rows[j] == if j == i then b.rows[i].(state := Sent) else b.rows[j]
    ensures forall m :: IsAfter(bs[3], m, if m !in b.matches then None
                                          else if b.matches[m] == QueuedPhoto && b.rows[i].photoOf == Some(m)
                                          then Some(Presented) else Some(b.matches[m]))
  {
    var k := |b.attempts|;
    var b1 := Step(b, Claims(i, true, true));
    var b2 := Step(b1, Calls(k, Accepted));
    var b3 := Step(b2, Reports(k));
    bs, es := [b, b1, b2, b3], [Claims(i, true, true), Calls(k, Accepted), Reports(k)];
  }

  /** Then the next row of the phone that waits may be sent. */
  lemma NextMayBeSent(b: Box, i: nat, j: nat) returns (bs: seq<Box>, es: seq<Event>)
    requires MayBeSent(b, i) && i < j < |b.rows| && b.rows[j].phone == b.rows[i].phone
    requires b.rows[j].mode == Live && Waiting(b, j) && b.rows[j].format != AwaitingFormat && !b.rows[j].alert
    requires forall k :: i < k < j && b.rows[k].phone == b.rows[i].phone ==> Ended(b.rows[k].state)
    ensures !MayBeSent(b, j)
    ensures Run(bs, es) && bs[0] == b && MayBeSent(bs[|es|], j)
  {
    bs, es := SendsRow(b, i);
  }

  /** And a receiver whose queued photo it was may take the match. */
  lemma PhotoLeadsToInterest(b: Box, i: nat, m: Match) returns (bs: seq<Box>, es: seq<Event>)
    requires MayBeSent(b, i) && b.rows[i].photoOf == Some(m) && m in b.matches && b.matches[m] == QueuedPhoto
    requires m.0 !in b.receivers
    ensures Run(bs, es) && bs[0] == b && Enabled(bs[|es|], Interests(m, true))
    ensures ClaimStands(Step(bs[|es|], Interests(m, true)), m.0, m.1)
  {
    bs, es := SendsRow(b, i);
    assert IsAfter(bs[3], m, Some(Presented));
  }

  // ------------------------------------------------------------- a queued photo

  /** Every match past waiting has its photo row. */
  predicate PhotosQueued(b: Box) {
    forall m :: m in b.matches && b.matches[m] in {QueuedPhoto, Presented, Interested} ==> HasPhotoRow(b.rows, m)
  }

  lemma StepQueuesPhotos(b: Box, e: Event)
    requires Enabled(b, e) && PhotosQueued(b)
    ensures PhotosQueued(Step(b, e))
  {
    var c := Step(b, e);
    StepKeepsPhotos(b, e);
    forall m | m in c.matches && c.matches[m] in {QueuedPhoto, Presented, Interested} ensures HasPhotoRow(c.rows, m) {
      MatchBecomesExactly(b, e, m);
      if HasPhotoRow(b.rows, m) {
        var i :| 0 <= i < |b.rows| && b.rows[i].photoOf == Some(m);
        assert c.rows[i].photoOf == Some(m);
      } else {
        assert c.rows[|c.rows| - 1].photoOf == Some(m);
      }
    }
  }

  lemma {:induction false} PhotosQueuedAlong(bs: seq<Box>, es: seq<Event>, n: nat)
    requires Run(bs, es) && bs[0] == EMPTY && n <= |es|
    ensures PhotosQueued(bs[n])
  {
    if n == 0 {
    } else {
      PhotosQueuedAlong(bs, es, n - 1);
      StepQueuesPhotos(bs[n - 1], es[n - 1]);
    }
  }

  /** The photo row of m has ended, no handler of it runs, and m was not shown. */
  predicate Stuck(b: Box, m: Match, i: nat) {
    && i < |b.rows| && b.rows[i].photoOf == Some(m) && Ended(b.rows[i].state)
    && (forall k :: 0 <= k < |b.attempts| && b.attempts[k].row == i ==> !Running(b.attempts[k]))
    && m in b.matches && b.matches[m] in {QueuedPhoto, Unavailable}
  }

  lemma StepStaysStuck(b: Box, e: Event, m: Match, i: nat)
    requires Enabled(b, e) && PhotoRowsUnique(b) && Stuck(b, m, i)
    ensures Stuck(Step(b, e), m, i)
  {
    StepMoves(b, e, i);
    MatchBecomesExactly(b, e, m);
    if Shows(b, e, m) {
      var j :| 0 <= j < |b.rows| && ShowsOn(b, e, m, j);
      assert j == i;
    }
    StuckAttempts(b, e, i);
  }

  lemma StuckAttempts(b: Box, e: Event, i: nat)
    requires Enabled(b, e) && i < |b.rows| && Ended(b.rows[i].state)
    requires forall k :: 0 <= k < |b.attempts| && b.attempts[k].row == i ==> !Running(b.attempts[k])
    ensures var c := Step(b, e);
            forall k :: 0 <= k < |c.attempts| && c.attempts[k].row == i ==> !Running(c.attempts[k])
  {}

  /** A photo that was cancelled, with no handler left on it, is never shown: its
      match stays queued, whatever is offered again, until another receiver takes
      the request. */
  lemma {:induction false} CancelledPhotoIsNeverShown(bs: seq<Box>, es: seq<Event>, m: Match, i: nat, n: nat, p: nat)
    requires Run(bs, es) && bs[0] == EMPTY && n <= p <= |es| && Stuck(bs[n], m, i)
    ensures Stuck(bs[p], m, i)
  {
    if n == p {
    } else {
      CancelledPhotoIsNeverShown(bs, es, m, i, n, p - 1);
      MatchesAlong(bs, es, p - 1);
      StepStaysStuck(bs[p - 1], es[p - 1], m, i);
    }
  }
}
