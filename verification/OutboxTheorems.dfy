/** What holds of the outbox over every run: no blind resend, delivery in order
    within a phone, and exclusive claims of a match. */
module OutboxTheorems {
  import opened Types
  import opened Counting
  import opened Outbox

  // ------------------------------------------------------------ no blind resend

  /** The call may have reached the customer: it was not definitely refused. */
  function MayHaveArrived(i: nat): Call -> bool {
    (c: Call) => c.row == i && c.answer != Refused
  }

  /** The attempt may still call the channel, or put the row back. */
  function MayRepeat(i: nat): Attempt -> bool {
    (a: Attempt) => a.row == i && (a.phase.Claimed? || a.phase == Answered(Refused))
  }

  function Is(i: nat): nat -> bool {
    (j: nat) => j == i
  }

  function Arrivals(b: Box, i: nat): nat {
    Count(b.calls, MayHaveArrived(i))
  }

  function Reopenings(b: Box, i: nat): nat {
    Count(b.reopened, Is(i))
  }

  /** The chances this row has to reach the customer: the calls made, the
      attempts that may still make one, and the row itself while a claim of it
      would start a new attempt. */
  function Chances(b: Box, i: nat): nat {
    Arrivals(b, i) + Count(b.attempts, MayRepeat(i)) + Claimable(b, i)
  }

  function Claimable(b: Box, i: nat): nat {
    if i < |b.rows| && b.rows[i].state in {Pending, Failed} then 1 else 0
  }

  /** The logs name existing rows only. */
  predicate InRange(b: Box) {
    && (forall k :: 0 <= k < |b.attempts| ==> b.attempts[k].row < |b.rows|)
    && (forall k :: 0 <= k < |b.calls| ==> b.calls[k].row < |b.rows|)
    && (forall k :: 0 <= k < |b.reopened| ==> b.reopened[k] < |b.rows|)
  }

  ghost predicate Bounded(b: Box) {
    InRange(b) && forall i: nat :: Chances(b, i) <= 1 + Reopenings(b, i)
  }

  /** The step gives no row a chance it had not, beyond a new row's first one
      and the one an admin's not_delivered gives. */
  predicate NoNewChance(b: Box, c: Box, i: nat) {
    && |c.rows| >= |b.rows|
    && (i < |b.rows| ==> Chances(c, i) + Reopenings(b, i) <= Chances(b, i) + Reopenings(c, i))
  }

  lemma ClaimChances(b: Box, j: nat, live: bool, allowed: bool, i: nat)
    requires j < |b.rows|
    ensures NoNewChance(b, Claim(b, j, live, allowed).0, i)
  {
    var (c, result) := Claim(b, j, live, allowed);
    assert c.calls == b.calls && c.reopened == b.reopened;
    if result.Attempting? {
      CountSnoc(b.attempts, Attempt(j, Claimed), MayRepeat(i));
    } else {
      assert c.attempts == b.attempts;
    }
  }

  lemma ProgressChances(b: Box, k: nat, phase: Phase, i: nat)
    requires k < |b.attempts|
    ensures var c := Progress(b, k, phase);
            Count(c.attempts, MayRepeat(i)) == Count(b.attempts, MayRepeat(i))
              - (if MayRepeat(i)(b.attempts[k]) then 1 else 0)
              + (if MayRepeat(i)(b.attempts[k].(phase := phase)) then 1 else 0)
  {
    CountUpdate(b.attempts, k, b.attempts[k].(phase := phase), MayRepeat(i));
  }

  lemma CallChances(b: Box, k: nat, answer: Answer, i: nat)
    requires k < |b.attempts| && b.attempts[k].phase.Claimed?
    ensures NoNewChance(b, CallChannel(b, k, answer), i)
  {
    var call, a, c := Call(b.attempts[k].row, answer), b.attempts[k], CallChannel(b, k, answer);
    ProgressChances(b, k, Answered(answer), i);
    CountSnoc(b.calls, call, MayHaveArrived(i));
    assert Claimable(c, i) == Claimable(b, i) && Reopenings(c, i) == Reopenings(b, i);
    assert MayRepeat(i)(a) <==> a.row == i;
    assert MayHaveArrived(i)(call) <==> a.row == i && answer != Refused;
  }

  lemma ReportChances(b: Box, k: nat, i: nat)
    requires k < |b.attempts| && b.attempts[k].row < |b.rows| && b.attempts[k].phase.Answered?
    ensures NoNewChance(b, Report(b, k), i)
  {
    ProgressChances(b, k, Over, i);
  }

  lemma ResolveChances(b: Box, j: nat, jobFailed: bool, outcome: Resolution, i: nat)
    requires j < |b.rows|
    ensures NoNewChance(b, Resolve(b, j, jobFailed, outcome), i)
  {
    CountSnoc(b.reopened, j, Is(i));
  }

  lemma StepChances(b: Box, e: Event, i: nat)
    requires Enabled(b, e)
    ensures NoNewChance(b, Step(b, e), i)
  {
    match e
    case Claims(j, live, allowed) => ClaimChances(b, j, live, allowed, i);
    case Calls(k, answer) => CallChances(b, k, answer, i);
    case GivesUp(k, answer) => ProgressChances(b, k, Answered(answer), i);
    case Reports(k) => ReportChances(b, k, i);
    case Dies(k) => ProgressChances(b, k, Over, i);
    case Resolves(j, jobFailed, outcome) => ResolveChances(b, j, jobFailed, outcome, i);
    case _ =>
  }

  lemma StepInRange(b: Box, e: Event)
    requires Enabled(b, e) && InRange(b)
    ensures InRange(Step(b, e))
  {}

  /** A row that does not exist has had no call and no attempt. */
  lemma NoChanceYet(b: Box, i: nat)
    requires InRange(b) && i >= |b.rows|
    ensures Arrivals(b, i) == 0 && Count(b.attempts, MayRepeat(i)) == 0 && Reopenings(b, i) == 0
  {
    CountNone(b.calls, MayHaveArrived(i));
    CountNone(b.attempts, MayRepeat(i));
    CountNone(b.reopened, Is(i));
  }

  lemma StepBounded(b: Box, e: Event)
    requires Enabled(b, e) && Bounded(b)
    ensures Bounded(Step(b, e))
  {
    var c := Step(b, e);
    StepInRange(b, e);
    forall i: nat ensures Chances(c, i) <= 1 + Reopenings(c, i) {
      StepChances(b, e, i);
      if i >= |c.rows| { NoChanceYet(c, i); }
      else if i >= |b.rows| { NewRowChance(b, e, i); }
    }
  }

  lemma AppendedChance(b: Box, phone: Phone, mode: Mode, format: Format, photoOf: Option<Match>, i: nat)
    requires InRange(b) && i == |b.rows|
    ensures Chances(Appended(b, phone, mode, format, photoOf), i) <= 1
  {
    NoChanceYet(b, i);
  }

  lemma OfferedChance(b: Box, m: Match, mode: Mode, hasPhoto: bool, i: nat)
    requires InRange(b) && i >= |b.rows|
    ensures i < |MatchPhoto(b, m, mode, hasPhoto).rows| ==> Chances(MatchPhoto(b, m, mode, hasPhoto), i) <= 1
  {
    if i == |b.rows| {
      AppendedChance(b.(matches := b.matches[m := Queue(b, m, hasPhoto)]), m.1, mode, Ready, Some(m), i);
    }
  }

  /** Only an insertion or an offered match adds a row. */
  lemma NewRowChance(b: Box, e: Event, i: nat)
    requires Enabled(b, e) && InRange(b) && |b.rows| <= i < |Step(b, e).rows|
    ensures Chances(Step(b, e), i) <= 1
  {
    match e
    case Inserted(phone, mode, deferred) =>
      AppendedChance(b, phone, mode, if deferred then AwaitingFormat else Ready, None, i);
    case Offers(m, mode, hasPhoto) => OfferedChance(b, m, mode, hasPhoto, i);
    case _ => SameRows(b, e);
  }

  lemma SameRows(b: Box, e: Event)
    requires Enabled(b, e) && !e.Inserted? && !e.Offers?
    ensures |Step(b, e).rows| == |b.rows|
  {}

  lemma EmptyIsBounded()
    ensures Bounded(EMPTY)
  {
    forall i: nat ensures Chances(EMPTY, i) == 0 { NoChanceYet(EMPTY, i); }
  }

  lemma {:induction false} BoundedAlong(bs: seq<Box>, es: seq<Event>, n: nat)
    requires Run(bs, es) && bs[0] == EMPTY && n <= |es|
    ensures Bounded(bs[n])
  {
    if n == 0 {
    } else {
      BoundedAlong(bs, es, n - 1);
      StepBounded(bs[n - 1], es[n - 1]);
    }
  }

  /** Whatever overlaps, crashes or is reported late: the calls of a row that
      were not definitely refused are at most one more than the times an admin
      declared it not delivered. */
  lemma NoBlindResend(bs: seq<Box>, es: seq<Event>, n: nat, i: nat)
    requires Run(bs, es) && bs[0] == EMPTY && n <= |es|
    ensures Arrivals(bs[n], i) <= 1 + Reopenings(bs[n], i)
  {
    BoundedAlong(bs, es, n);
    assert Chances(bs[n], i) <= 1 + Reopenings(bs[n], i);
  }

  // -------------------------------------------------- delivery order in a lane

  /** Phone and mode never change, and an ended row stays ended. */
  predicate StaysEnded(b: Box, c: Box) {
    && |b.rows| <= |c.rows|
    && forall i :: 0 <= i < |b.rows| ==>
         && c.rows[i].phone == b.rows[i].phone && c.rows[i].mode == b.rows[i].mode
         && (Ended(b.rows[i].state) ==> Ended(c.rows[i].state))
  }

  /** The row of a running attempt is claimed; only an attempt that already holds
      an acceptance may find it ended. */
  predicate InHand(s: RowState, phase: Phase) {
    s in {Sending, Uncertain} || (phase == Answered(Accepted) && Ended(s))
  }

  /** A running attempt is alone on its row, which is a live row, formatted, in
      hand, and first in its lane. */
  predicate Claiming(b: Box, k: nat)
    requires k < |b.attempts| && b.attempts[k].row < |b.rows|
  {
    var i := b.attempts[k].row;
    && b.rows[i].mode == Live && InHand(b.rows[i].state, b.attempts[k].phase)
    && b.rows[i].format != AwaitingFormat && !b.rows[i].alert
    && !Blocked(b.rows, i)
    && forall l :: 0 <= l < |b.attempts| && Running(b.attempts[l]) && b.attempts[l].row == i ==> l == k
  }

  predicate AttemptsInTurn(b: Box) {
    forall k :: 0 <= k < |b.attempts| ==>
      b.attempts[k].row < |b.rows| && (Running(b.attempts[k]) ==> Claiming(b, k))
  }

  predicate CallsInTurn(b: Box) {
    && (forall x :: 0 <= x < |b.calls| ==>
          && b.calls[x].row < |b.rows| && b.rows[b.calls[x].row].mode == Live
          && !Blocked(b.rows, b.calls[x].row))
    && (forall x, y :: 0 <= x < y < |b.calls| && b.rows[b.calls[x].row].phone == b.rows[b.calls[y].row].phone ==>
          b.calls[x].row <= b.calls[y].row)
  }

  predicate SendingInTurn(b: Box) {
    forall i :: 0 <= i < |b.rows| && b.rows[i].state == Sending ==> !Blocked(b.rows, i)
  }

  predicate Lanes(b: Box) {
    AttemptsInTurn(b) && CallsInTurn(b) && SendingInTurn(b)
  }

  /** A resolution that takes effect under a running handler of its row, unless
      that handler already holds an acceptance and the row is not put back. */
  predicate Harmful(b: Box, e: Event) {
    && e.Resolves? && e.jobFailed && e.row < |b.rows| && Resolvable(b.rows[e.row].state)
    && exists k :: 0 <= k < |b.attempts| && HarmedBy(b, e, k)
  }

  predicate HarmedBy(b: Box, e: Event, k: nat)
    requires e.Resolves? && k < |b.attempts|
  {
    && b.attempts[k].row == e.row && Running(b.attempts[k])
    && (e.outcome == NotDelivered || b.attempts[k].phase != Answered(Accepted))
  }

  /** What the queue's failed send job is taken to mean: a resolution harms no
      running handler. */
  predicate Quiet(b: Box, e: Event) {
    !Harmful(b, e)
  }

  lemma UnblockedStays(b: Box, c: Box, i: nat)
    requires StaysEnded(b, c) && i < |b.rows| && !Blocked(b.rows, i)
    ensures !Blocked(c.rows, i)
  {}

  /** What a step may do to a row: phone, mode and photo never change, and an
      ended row reopens only by a report. */
  predicate RowMoves(r: Row, q: Row, reported: bool) {
    && q.phone == r.phone && q.mode == r.mode && q.photoOf == r.photoOf
    && (Ended(r.state) && !reported ==> Ended(q.state))
    && ((q.format == r.format && q.alert == r.alert) || r.format == AwaitingFormat)
  }

  predicate ReportOn(b: Box, e: Event, i: nat) {
    e.Reports? && e.attempt < |b.attempts| && b.attempts[e.attempt].row == i
  }

  lemma ClaimMoves(b: Box, j: nat, live: bool, allowed: bool, i: nat)
    requires i < |b.rows| && j < |b.rows|
    ensures var c := Claim(b, j, live, allowed).0; |c.rows| == |b.rows| && RowMoves(b.rows[i], c.rows[i], false)
  {}

  lemma ReportMoves(b: Box, k: nat, i: nat)
    requires i < |b.rows| && k < |b.attempts| && b.attempts[k].row < |b.rows| && b.attempts[k].phase.Answered?
    ensures var c := Report(b, k); |c.rows| == |b.rows| && RowMoves(b.rows[i], c.rows[i], b.attempts[k].row == i)
    ensures b.attempts[k].row == i && b.attempts[k].phase == Answered(Accepted) ==> Ended(Report(b, k).rows[i].state)
  {}

  lemma ResolveMoves(b: Box, j: nat, jobFailed: bool, outcome: Resolution, i: nat)
    requires i < |b.rows| && j < |b.rows|
    ensures var c := Resolve(b, j, jobFailed, outcome); |c.rows| == |b.rows| && RowMoves(b.rows[i], c.rows[i], false)
  {}

  lemma PhotoMoves(b: Box, m: Match, mode: Mode, hasPhoto: bool, i: nat)
    requires i < |b.rows|
    ensures var c := MatchPhoto(b, m, mode, hasPhoto); |c.rows| >= |b.rows| && RowMoves(b.rows[i], c.rows[i], false)
  {}

  lemma StepMoves(b: Box, e: Event, i: nat)
    requires Enabled(b, e) && i < |b.rows|
    ensures |b.rows| <= |Step(b, e).rows| && RowMoves(b.rows[i], Step(b, e).rows[i], ReportOn(b, e, i))
  {
    match e
    case Claims(j, live, allowed) => ClaimMoves(b, j, live, allowed, i);
    case Reports(k) => ReportMoves(b, k, i);
    case Resolves(j, jobFailed, outcome) => ResolveMoves(b, j, jobFailed, outcome, i);
    case Offers(m, mode, hasPhoto) => PhotoMoves(b, m, mode, hasPhoto, i);
    case _ =>
  }

  lemma StepGrows(b: Box, e: Event)
    requires Enabled(b, e)
    ensures |b.rows| <= |Step(b, e).rows|
  {
    if b.rows != [] { StepMoves(b, e, 0); }
  }

  lemma StepStaysEnded(b: Box, e: Event)
    requires Enabled(b, e) && Lanes(b)
    ensures StaysEnded(b, Step(b, e))
  {
    StepGrows(b, e);
    forall i | 0 <= i < |b.rows|
      ensures RowMoves(b.rows[i], Step(b, e).rows[i], Ended(b.rows[i].state) && ReportOn(b, e, i))
    {
      StepMoves(b, e, i);
    }
    if e.Reports? {
      assert Claiming(b, e.attempt);
      ReportMoves(b, e.attempt, b.attempts[e.attempt].row);
    }
  }

  lemma CallsGrow(b: Box, e: Event)
    requires Enabled(b, e)
    ensures Step(b, e).calls == b.calls + if e.Calls? then [Call(b.attempts[e.attempt].row, e.answer)] else []
  {}

  lemma StepCallsInTurn(b: Box, e: Event)
    requires Enabled(b, e) && Lanes(b)
    ensures CallsInTurn(Step(b, e))
  {
    var c := Step(b, e);
    StepStaysEnded(b, e);
    CallsGrow(b, e);
    forall x | 0 <= x < |b.calls| ensures !Blocked(c.rows, b.calls[x].row) {
      UnblockedStays(b, c, b.calls[x].row);
    }
    if e.Calls? {
      CallsSoFar(b, e.attempt);
      UnblockedStays(b, c, b.attempts[e.attempt].row);
    }
  }

  /** Everything this phone has been sent so far is not later than the row an
      attempt is about to send: that row is still open. */
  lemma CallsSoFar(b: Box, k: nat)
    requires Lanes(b) && k < |b.attempts| && b.attempts[k].phase.Claimed?
    ensures var i := b.attempts[k].row;
            && !Blocked(b.rows, i) && b.rows[i].mode == Live
            && forall x :: 0 <= x < |b.calls| && b.rows[b.calls[x].row].phone == b.rows[i].phone ==> b.calls[x].row <= i
  {
    assert Claiming(b, k);
  }

  predicate Taken(b: Box, i: nat) {
    && i < |b.rows| && b.rows[i].state in {Sending, Uncertain}
    && b.rows[i].format != AwaitingFormat && !b.rows[i].alert && !Blocked(b.rows, i)
  }

  lemma ClaimLeavesTaken(b: Box, j: nat, live: bool, allowed: bool, i: nat)
    requires Taken(b, i) && j < |b.rows|
    ensures var c := Claim(b, j, live, allowed).0; i < |c.rows| && c.rows[i].state in {Sending, Uncertain}
  {}

  lemma PhotoLeavesTaken(b: Box, m: Match, mode: Mode, hasPhoto: bool, i: nat)
    requires i < |b.rows|
    ensures var c := MatchPhoto(b, m, mode, hasPhoto); i < |c.rows| && c.rows[i].state == b.rows[i].state
  {}

  /** A resolution that is not harmful keeps a claimed row as it is, or ends it
      under an acceptance. */
  lemma ResolveKeepsInHand(b: Box, e: Event, k: nat)
    requires Enabled(b, e) && e.Resolves? && Quiet(b, e) && k < |b.attempts| && Running(b.attempts[k])
    requires b.attempts[k].row < |b.rows| && InHand(b.rows[b.attempts[k].row].state, b.attempts[k].phase)
    ensures b.attempts[k].row < |Step(b, e).rows|
    ensures InHand(Step(b, e).rows[b.attempts[k].row].state, b.attempts[k].phase)
  {
    assert e.row == b.attempts[k].row && e.jobFailed && Resolvable(b.rows[e.row].state) ==> !HarmedBy(b, e, k);
  }

  lemma AnswerStays(b: Box, e: Event, k: nat)
    requires Enabled(b, e) && k < |b.attempts| && k < |Step(b, e).attempts| && Running(Step(b, e).attempts[k])
    ensures b.attempts[k].phase.Answered? ==> Step(b, e).attempts[k].phase == b.attempts[k].phase
  {}

  /** Only its own claim or report, and a harmless resolution, move the state of a
      row that is claimed. */
  lemma ClaimedStays(b: Box, e: Event, k: nat)
    requires Enabled(b, e) && Lanes(b) && Quiet(b, e)
    requires k < |b.attempts| && Running(b.attempts[k]) && k < |Step(b, e).attempts| && Running(Step(b, e).attempts[k])
    ensures var i := b.attempts[k].row;
            i < |Step(b, e).rows| && InHand(Step(b, e).rows[i].state, Step(b, e).attempts[k].phase)
  {
    assert Claiming(b, k);
    var i := b.attempts[k].row;
    AnswerStays(b, e, k);
    if Ended(b.rows[i].state) {
      StepStaysEnded(b, e);
    } else if e.Claims? {
      ClaimLeavesTaken(b, e.row, e.live, e.allowed, i);
    } else if e.Offers? {
      PhotoLeavesTaken(b, e.offer, e.mode, e.hasPhoto, i);
    } else if e.Resolves? {
      ResolveKeepsInHand(b, e, k);
    } else if e.Reports? {
      assert Claiming(b, e.attempt) && e.attempt != k;
      ReportLeavesOthers(b, e.attempt, i);
    }
  }

  lemma ReportLeavesOthers(b: Box, k: nat, i: nat)
    requires i < |b.rows| && k < |b.attempts| && b.attempts[k].row < |b.rows| && b.attempts[k].phase.Answered?
    requires b.attempts[k].row != i
    ensures i < |Report(b, k).rows| && Report(b, k).rows[i] == b.rows[i]
  {}

  lemma RunningBefore(b: Box, e: Event, l: nat)
    requires Enabled(b, e) && l < |Step(b, e).attempts| && Running(Step(b, e).attempts[l])
    ensures if l < |b.attempts| then Running(b.attempts[l]) && Step(b, e).attempts[l].row == b.attempts[l].row
            else e.Claims? && l == |b.attempts| && Step(b, e).attempts[l] == Attempt(e.row, Claimed)
                 && b.rows[e.row].state !in {Sending, Uncertain} && Claim(b, e.row, e.live, e.allowed).1.Attempting?
  {}

  lemma StillClaiming(b: Box, e: Event, k: nat)
    requires Enabled(b, e) && Lanes(b) && Quiet(b, e)
    requires k < |b.attempts| && k < |Step(b, e).attempts| && Running(Step(b, e).attempts[k])
    ensures Step(b, e).attempts[k].row < |Step(b, e).rows| && Claiming(Step(b, e), k)
  {
    var c := Step(b, e);
    RunningBefore(b, e, k);
    assert Claiming(b, k);
    ClaimedStays(b, e, k);
    StepStaysEnded(b, e);
    UnblockedStays(b, c, b.attempts[k].row);
    StepMoves(b, e, b.attempts[k].row);
    forall l | 0 <= l < |c.attempts| && Running(c.attempts[l]) && c.attempts[l].row == c.attempts[k].row
      ensures l == k
    {
      RunningBefore(b, e, l);
    }
  }

  /** A new attempt is the only one on its row: the row was not claimed. */
  lemma NewClaim(b: Box, e: Event, k: nat)
    requires Enabled(b, e) && Lanes(b) && |b.attempts| <= k < |Step(b, e).attempts|
    ensures Step(b, e).attempts[k].row < |Step(b, e).rows| && Claiming(Step(b, e), k)
  {
    var c := Step(b, e);
    assert e.Claims? && k == |b.attempts|;
    forall l | 0 <= l < |b.attempts| && Running(b.attempts[l]) ensures b.attempts[l].row != e.row {
      assert Claiming(b, l);
    }
  }

  /** Only a claim of a row that is first in its lane starts to send it. */
  predicate Starts(rows: seq<Row>, q: Row, i: nat)
    requires i < |rows|
  {
    q.state == Sending ==> rows[i].state == Sending || !Blocked(rows, i)
  }

  lemma ClaimStarts(b: Box, j: nat, live: bool, allowed: bool, i: nat)
    requires i < |b.rows| && j < |b.rows|
    ensures var c := Claim(b, j, live, allowed).0; i < |c.rows| && Starts(b.rows, c.rows[i], i)
  {}

  lemma ReportStarts(b: Box, k: nat, i: nat)
    requires i < |b.rows| && k < |b.attempts| && b.attempts[k].row < |b.rows| && b.attempts[k].phase.Answered?
    ensures i < |Report(b, k).rows| && Starts(b.rows, Report(b, k).rows[i], i)
  {}

  lemma ResolveStarts(b: Box, j: nat, jobFailed: bool, outcome: Resolution, i: nat)
    requires i < |b.rows| && j < |b.rows|
    ensures var c := Resolve(b, j, jobFailed, outcome); i < |c.rows| && Starts(b.rows, c.rows[i], i)
  {}

  lemma SendingStarts(b: Box, e: Event, i: nat)
    requires Enabled(b, e) && i < |b.rows|
    ensures i < |Step(b, e).rows| && Starts(b.rows, Step(b, e).rows[i], i)
  {
    match e
    case Claims(j, live, allowed) => ClaimStarts(b, j, live, allowed, i);
    case Reports(k) => ReportStarts(b, k, i);
    case Resolves(j, jobFailed, outcome) => ResolveStarts(b, j, jobFailed, outcome, i);
    case Offers(m, mode, hasPhoto) => PhotoLeavesTaken(b, m, mode, hasPhoto, i);
    case _ =>
  }

  lemma NewRowsWait(b: Box, e: Event, i: nat)
    requires Enabled(b, e) && |b.rows| <= i < |Step(b, e).rows|
    ensures Step(b, e).rows[i].state == Pending
  {
    if !e.Inserted? && !e.Offers? { SameRows(b, e); }
  }

  lemma StepSendingInTurn(b: Box, e: Event)
    requires Enabled(b, e) && Lanes(b)
    ensures SendingInTurn(Step(b, e))
  {
    var c := Step(b, e);
    StepStaysEnded(b, e);
    forall i | 0 <= i < |c.rows| && c.rows[i].state == Sending ensures !Blocked(c.rows, i) {
      if i >= |b.rows| {
        NewRowsWait(b, e, i);
      } else {
        SendingStarts(b, e, i);
        UnblockedStays(b, c, i);
      }
    }
  }

  lemma StepLanes(b: Box, e: Event)
    requires Enabled(b, e) && Lanes(b) && Quiet(b, e)
    ensures Lanes(Step(b, e))
  {
    var c := Step(b, e);
    StepCallsInTurn(b, e);
    StepSendingInTurn(b, e);
    forall k | 0 <= k < |c.attempts|
      ensures c.attempts[k].row < |c.rows| && (Running(c.attempts[k]) ==> Claiming(c, k))
    {
      if k >= |b.attempts| {
        NewClaim(b, e, k);
      } else if Running(c.attempts[k]) {
        StillClaiming(b, e, k);
      } else {
        StepStaysEnded(b, e);
        assert c.attempts[k].row == b.attempts[k].row;
      }
    }
  }

  ghost predicate QuietRun(bs: seq<Box>, es: seq<Event>) {
    Run(bs, es) && bs[0] == EMPTY && forall i :: 0 <= i < |es| ==> Quiet(bs[i], es[i])
  }

  lemma {:induction false} LanesAlong(bs: seq<Box>, es: seq<Event>, n: nat)
    requires QuietRun(bs, es) && n <= |es|
    ensures Lanes(bs[n])
  {
    if n == 0 {
    } else {
      LanesAlong(bs, es, n - 1);
      StepLanes(bs[n - 1], es[n - 1]);
    }
  }

  /** Each row reaches the channel only while every earlier row of its phone is
      closed, and only rows created live do, whatever the mode is now. */
  lemma CallsWaitTheirTurn(bs: seq<Box>, es: seq<Event>, n: nat)
    requires QuietRun(bs, es) && n < |es| && es[n].Calls?
    ensures var i := bs[n].attempts[es[n].attempt].row;
            && i < |bs[n].rows| && bs[n].rows[i].mode == Live && !Blocked(bs[n].rows, i)
  {
    LanesAlong(bs, es, n);
    CallsSoFar(bs[n], es[n].attempt);
  }

  /** So the calls of one phone, and with them the accepted deliveries, are in
      the order of the outbox. */
  lemma CallsAreInOrder(bs: seq<Box>, es: seq<Event>, x: nat, y: nat)
    requires QuietRun(bs, es)
    requires x < y < |bs[|es|].calls|
    ensures var b := bs[|es|];
            && b.calls[x].row < |b.rows| && b.calls[y].row < |b.rows|
            && (b.rows[b.calls[x].row].phone == b.rows[b.calls[y].row].phone ==> b.calls[x].row <= b.calls[y].row)
  {
    LanesAlong(bs, es, |es|);
  }

  lemma {:induction false} EndedForGood(bs: seq<Box>, es: seq<Event>, i: nat, m: nat, n: nat)
    requires QuietRun(bs, es) && m <= n <= |es| && i < |bs[m].rows| && Ended(bs[m].rows[i].state)
    ensures i < |bs[n].rows| && Ended(bs[n].rows[i].state)
  {
    if m == n {
    } else {
      EndedForGood(bs, es, i, m, n - 1);
      LanesAlong(bs, es, n - 1);
      StepStaysEnded(bs[n - 1], es[n - 1]);
    }
  }

  predicate Next(b: Box, e: Event, c: Box) {
    Enabled(b, e) && Step(b, e) == c
  }

  /** A fresh live row of this phone. */
  function Fresh(phone: Phone): Row {
    Row(phone, Live, Pending, Ready, false, None)
  }

  /** Row 0 claimed, by a handler that still runs, and then cancelled. */
  function CancelledUnderHandler(phone: Phone): Box {
    EMPTY.(rows := [Fresh(phone).(state := RowState.Cancelled), Fresh(phone)], attempts := [Attempt(0, Claimed)])
  }

  lemma TwoRows(phone: Phone) returns (bs: seq<Box>, es: seq<Event>)
    ensures Run(bs, es) && bs[0] == EMPTY && |es| == 2 && bs[2] == EMPTY.(rows := [Fresh(phone), Fresh(phone)])
  {
    var insert := Inserted(phone, Live, false);
    var b1 := EMPTY.(rows := [Fresh(phone)]);
    assert [Fresh(phone)] + [Fresh(phone)] == [Fresh(phone), Fresh(phone)];
    assert Next(EMPTY, insert, b1) && Next(b1, insert, EMPTY.(rows := [Fresh(phone), Fresh(phone)]));
    bs, es := [EMPTY, b1, EMPTY.(rows := [Fresh(phone), Fresh(phone)])], [insert, insert];
  }

  lemma CancelUnderHandler(phone: Phone) returns (bs: seq<Box>, es: seq<Event>)
    ensures Run(bs, es) && bs[0] == EMPTY && |es| == 5 && bs[5] == CancelledUnderHandler(phone)
  {
    bs, es := TwoRows(phone);
    var r := Fresh(phone);
    var b3 := EMPTY.(rows := [r.(state := Sending), r], attempts := [Attempt(0, Claimed)]);
    var b4 := b3.(rows := [r.(state := Uncertain), r]);
    var claim, cancel := Claims(0, true, true), Resolves(0, true, CancelSend);
    assert Next(bs[2], claim, b3) && Next(b3, claim, b4) && Next(b4, cancel, CancelledUnderHandler(phone));
    bs, es := bs + [b3, b4, CancelledUnderHandler(phone)], es + [claim, claim, cancel];
  }

  /** The condition is needed: when a send job counts as failed while its
      handler still runs, a cancelled row can be sent, after a later one. */
  lemma ResolvingUnderAHandlerReorders(phone: Phone) returns (bs: seq<Box>, es: seq<Event>)
    ensures Run(bs, es) && bs[0] == EMPTY && bs[|es|].calls == [Call(1, Accepted), Call(0, Accepted)]
  {
    bs, es := CancelUnderHandler(phone);
    var b5 := bs[5];
    var b6 := b5.(rows := [b5.rows[0], Fresh(phone).(state := Sending)],
                  attempts := [Attempt(0, Claimed), Attempt(1, Claimed)]);
    var b7 := b6.(attempts := [Attempt(0, Claimed), Attempt(1, Answered(Accepted))], calls := [Call(1, Accepted)]);
    var b8 := b7.(attempts := [Attempt(0, Answered(Accepted)), Attempt(1, Answered(Accepted))],
                  calls := [Call(1, Accepted), Call(0, Accepted)]);
    var more := [Claims(1, true, true), Calls(1, Accepted), Calls(0, Accepted)];
    assert Next(b5, more[0], b6) && Next(b6, more[1], b7) && Next(b7, more[2], b8);
    bs, es := bs + [b6, b7, b8], es + more;
  }

  // ------------------------------------------------------------------- matches

  /** The match photo has left the outbox as delivered. */
  predicate WasShown(b: Box, m: Match) {
    exists i :: i in b.left && i < |b.rows| && b.rows[i].photoOf == Some(m)
  }

  predicate PhotoRowsUnique(b: Box) {
    forall i, j :: 0 <= i < j < |b.rows| && b.rows[i].photoOf.Some? ==> b.rows[i].photoOf != b.rows[j].photoOf
  }

  predicate ShownBeforePresented(b: Box) {
    forall m :: m in b.matches && b.matches[m] in {Presented, Interested} ==> WasShown(b, m)
  }

  /** The claimant is the receiver, and every other match is unavailable. */
  predicate ClaimStands(b: Box, n: nat, phone: Phone) {
    && n in b.claims && b.claims[n] == phone && n in b.receivers && b.receivers[n] == phone
    && (n, phone) in b.matches
    && forall m :: m in b.matches && m.0 == n ==> b.matches[m] == if m.1 == phone then Interested else Unavailable
  }

  predicate ClaimsStand(b: Box) {
    forall n :: n in b.claims ==> ClaimStands(b, n, b.claims[n])
  }

  predicate MatchInv(b: Box) {
    PhotoRowsUnique(b) && ShownBeforePresented(b) && ClaimsStand(b)
  }

  lemma ShownStays(b: Box, c: Box, m: Match)
    requires WasShown(b, m) && b.left <= c.left && |b.rows| <= |c.rows|
    requires forall i :: 0 <= i < |b.rows| ==> c.rows[i].photoOf == b.rows[i].photoOf
    ensures WasShown(c, m)
  {
    var i :| i in b.left && i < |b.rows| && b.rows[i].photoOf == Some(m);
    assert c.rows[i].photoOf == Some(m);
  }

  lemma StepKeepsPhotos(b: Box, e: Event)
    requires Enabled(b, e)
    ensures var c := Step(b, e);
            && b.left <= c.left && |b.rows| <= |c.rows|
            && forall i :: 0 <= i < |b.rows| ==> c.rows[i].photoOf == b.rows[i].photoOf
  {
    StepGrows(b, e);
    StepLeaves(b, e);
    forall i | 0 <= i < |b.rows| ensures Step(b, e).rows[i].photoOf == b.rows[i].photoOf {
      StepMoves(b, e, i);
    }
  }

  lemma StepLeaves(b: Box, e: Event)
    requires Enabled(b, e)
    ensures b.left <= Step(b, e).left
  {}

  /** A step presents a match only with its photo row leaving the outbox. */
  lemma StepShows(b: Box, e: Event, m: Match)
    requires Enabled(b, e) && ShownBeforePresented(b)
    requires m in Step(b, e).matches && Step(b, e).matches[m] in {Presented, Interested}
    ensures WasShown(Step(b, e), m)
  {
    var c := Step(b, e);
    StepKeepsPhotos(b, e);
    if WasShown(b, m) { ShownStays(b, c, m); } else { LeavesNow(b, e, m); }
  }

  /** Between b and c the match became presented because row i left. */
  predicate ShownBy(b: Box, c: Box, m: Match) {
    m in c.matches && c.matches[m] in {Presented, Interested} ==>
      (m in b.matches && b.matches[m] in {Presented, Interested}) || WasShown(c, m)
  }

  lemma LeaveShows(b: Box, i: nat, s: RowState, m: Match)
    requires i < |b.rows|
    ensures ShownBy(b, Leave(b, i, s), m)
  {
    var c := Leave(b, i, s);
    assert i in c.left && c.rows[i].photoOf == b.rows[i].photoOf;
  }

  lemma ClaimShows(b: Box, i: nat, live: bool, allowed: bool, m: Match)
    requires i < |b.rows|
    ensures ShownBy(b, Claim(b, i, live, allowed).0, m)
  {
    if b.rows[i].mode != Live { LeaveShows(b, i, ModeState(b.rows[i].mode), m); }
  }

  lemma ReportShows(b: Box, k: nat, m: Match)
    requires k < |b.attempts| && b.attempts[k].row < |b.rows| && b.attempts[k].phase.Answered?
    ensures ShownBy(b, Report(b, k), m)
  {
    LeaveShows(Progress(b, k, Over), b.attempts[k].row, Sent, m);
  }

  lemma ResolveShows(b: Box, i: nat, jobFailed: bool, outcome: Resolution, m: Match)
    requires i < |b.rows|
    ensures ShownBy(b, Resolve(b, i, jobFailed, outcome), m)
  {
    LeaveShows(b, i, Sent, m);
  }

  /** A claimed match was presented before. */
  lemma LeavesNow(b: Box, e: Event, m: Match)
    requires Enabled(b, e) && ShownBeforePresented(b) && !WasShown(b, m)
    requires m in Step(b, e).matches && Step(b, e).matches[m] in {Presented, Interested}
    ensures WasShown(Step(b, e), m)
  {
    match e
    case Claims(i, live, allowed) => ClaimShows(b, i, live, allowed, m);
    case Reports(k) => ReportShows(b, k, m);
    case Resolves(i, jobFailed, outcome) => ResolveShows(b, i, jobFailed, outcome, m);
    case _ => OthersShowNothing(b, e, m);
  }

  lemma OthersShowNothing(b: Box, e: Event, m: Match)
    requires Enabled(b, e) && ShownBeforePresented(b) && !e.Claims? && !e.Reports? && !e.Resolves?
    ensures m in Step(b, e).matches && Step(b, e).matches[m] in {Presented, Interested} ==> WasShown(b, m)
  {}

  lemma StepPhotoRows(b: Box, e: Event)
    requires Enabled(b, e) && PhotoRowsUnique(b)
    ensures PhotoRowsUnique(Step(b, e))
  {
    StepKeepsPhotos(b, e);
    if e.Offers? {
      MatchPhotoUnique(b, e.offer, e.mode, e.hasPhoto);
    } else if !e.Inserted? {
      SameRows(b, e);
    }
  }

  /** The dedupe key: a match gets no second photo row. */
  lemma MatchPhotoUnique(b: Box, m: Match, mode: Mode, hasPhoto: bool)
    requires PhotoRowsUnique(b)
    ensures PhotoRowsUnique(MatchPhoto(b, m, mode, hasPhoto))
  {}

  lemma StepClaims(b: Box, e: Event, n: nat, phone: Phone)
    requires Enabled(b, e) && ClaimStands(b, n, phone)
    ensures ClaimStands(Step(b, e), n, phone)
  {}

  lemma StepMatches(b: Box, e: Event)
    requires Enabled(b, e) && MatchInv(b)
    ensures MatchInv(Step(b, e))
  {
    var c := Step(b, e);
    StepPhotoRows(b, e);
    forall m | m in c.matches && c.matches[m] in {Presented, Interested} ensures WasShown(c, m) {
      StepShows(b, e, m);
    }
    forall n | n in c.claims ensures ClaimStands(c, n, c.claims[n]) {
      if n in b.claims { StepClaims(b, e, n, b.claims[n]); }
    }
  }

  lemma {:induction false} MatchesAlong(bs: seq<Box>, es: seq<Event>, n: nat)
    requires Run(bs, es) && bs[0] == EMPTY && n <= |es|
    ensures MatchInv(bs[n])
  {
    if n == 0 {
    } else {
      MatchesAlong(bs, es, n - 1);
      StepMatches(bs[n - 1], es[n - 1]);
    }
  }

  /** Interest succeeds only for a match whose one photo row has left the outbox
      as delivered, and for a request no one has received or claimed before. */
  lemma InterestNeedsAShownPhoto(bs: seq<Box>, es: seq<Event>, n: nat)
    requires Run(bs, es) && bs[0] == EMPTY && n < |es| && es[n].Interests?
    ensures WasShown(bs[n], es[n].claim)
    ensures es[n].claim.0 !in bs[n].claims && es[n].claim.0 !in bs[n].receivers
  {
    MatchesAlong(bs, es, n);
  }

  /** From then on the claimant is the receiver, its match is the interested
      one, and every other match of the request is unavailable, in every later
      box. */
  lemma {:induction false} ClaimIsExclusiveForever(bs: seq<Box>, es: seq<Event>, n: nat, m: nat)
    requires Run(bs, es) && bs[0] == EMPTY && n < m <= |es| && es[n].Interests?
    ensures ClaimStands(bs[m], es[n].claim.0, es[n].claim.1)
  {
    if m == n + 1 {
      assert ClaimStands(Step(bs[n], es[n]), es[n].claim.0, es[n].claim.1);
    } else {
      ClaimIsExclusiveForever(bs, es, n, m - 1);
      StepClaims(bs[m - 1], es[m - 1], es[n].claim.0, es[n].claim.1);
    }
  }
}
