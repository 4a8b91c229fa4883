/** The outbox (src/infrastructure/store.ts, Engine.send and the admin's
    resolution): rows in order of creation, a claim and a report with an
    unreliable channel call between them, and the match photos that are
    presented when their row leaves the outbox. A Box is the committed database
    between two transactions, with the attempts that are running. */
module Outbox {
  import opened Types

  datatype Mode = Live | ShadowMode | SimulationMode

  datatype RowState = Pending | Sending | Uncertain | Failed | Sent | Shadow | Simulation | Cancelled

  datatype Format = Ready | AwaitingFormat | FormatFailed

  /** A match is one receiver's interest in one request. */
  type Match = (nat, Phone)

  /** alert: the text is an operations alert and the phone is not the
      operator's. */
  datatype Row = Row(phone: Phone, mode: Mode, state: RowState, format: Format, alert: bool, photoOf: Option<Match>)

  /** What the channel answered, or could not. */
  datatype Answer = Accepted | Refused | Unknown

  /** One running send handler: it has claimed its row, then it knows an
      answer, then it has reported or died. */
  datatype Phase = Claimed | Answered(answer: Answer) | Over
  datatype Attempt = Attempt(row: nat, phase: Phase)

  datatype Call = Call(row: nat, answer: Answer)

  datatype MatchState = WaitingPhoto | QueuedPhoto | Presented | Interested | Unavailable

  /** calls, reopened, left and claims are history variables: the channel calls
      in order, the admin's not_delivered answers, the rows that once left the
      outbox as delivered, and which receiver claimed a request. */
  datatype Box = Box(
    rows: seq<Row>, attempts: seq<Attempt>,
    matches: map<Match, MatchState>, receivers: map<nat, Phone>,
    calls: seq<Call>, reopened: seq<nat>, left: set<nat>, claims: map<nat, Phone>)

  const EMPTY := Box([], [], map[], map[], [], [], {}, map[])

  predicate Ended(s: RowState) {
    s in {Sent, Shadow, Simulation, RowState.Cancelled}
  }

  predicate Running(a: Attempt) {
    !a.phase.Over?
  }

  /** An earlier row of the same phone is still open. */
  predicate Blocked(rows: seq<Row>, i: nat)
    requires i < |rows|
  {
    exists j :: 0 <= j < i && rows[j].phone == rows[i].phone && !Ended(rows[j].state)
  }

  function SetState(b: Box, i: nat, s: RowState): Box
    requires i < |b.rows|
  {
    b.(rows := b.rows[i := b.rows[i].(state := s)])
  }

  /** The row has been delivered, as far as anyone will know: its match photo
      counts as shown. */
  function Leave(b: Box, i: nat, s: RowState): Box
    requires i < |b.rows|
  {
    var m := b.rows[i].photoOf;
    var shown := m.Some? && m.value in b.matches && b.matches[m.value] == QueuedPhoto;
    SetState(b, i, s).(left := b.left + {i},
                       matches := if shown then b.matches[m.value := Presented] else b.matches)
  }

  function Appended(b: Box, phone: Phone, mode: Mode, format: Format, photoOf: Option<Match>): Box {
    b.(rows := b.rows + [Row(phone, mode, Pending, format, false, photoOf)])
  }

  // ------------------------------------------------------------------- sending

  datatype ClaimResult = Finished | Retry | Mismatch | Attempting(attempt: nat)

  function ModeState(m: Mode): RowState
    requires m != Live
  {
    if m == ShadowMode then Shadow else Simulation
  }

  /** The first transaction of send. */
  function Claim(b: Box, i: nat, live: bool, allowed: bool): (Box, ClaimResult)
    requires i < |b.rows|
  {
    var r := b.rows[i];
    if r.alert then (SetState(b, i, RowState.Cancelled), Finished)
    else if r.format == AwaitingFormat then (b, Retry)
    else if Ended(r.state) then (b, Finished)
    else if Blocked(b.rows, i) then (b, Retry)
    else if r.state == Sending || r.state == Uncertain then (SetState(b, i, Uncertain), Retry)
    else if r.mode != Live then (Leave(b, i, ModeState(r.mode)), Finished)
    else if !live then (b, Mismatch)
    else if !allowed then (b, Retry)
    else (SetState(b, i, Sending).(attempts := b.attempts + [Attempt(i, Claimed)]), Attempting(|b.attempts|))
  }

  function Progress(b: Box, k: nat, phase: Phase): Box
    requires k < |b.attempts|
  {
    b.(attempts := b.attempts[k := b.attempts[k].(phase := phase)])
  }

  /** The channel call. */
  function CallChannel(b: Box, k: nat, answer: Answer): Box
    requires k < |b.attempts|
  {
    Progress(b, k, Answered(answer)).(calls := b.calls + [Call(b.attempts[k].row, answer)])
  }

  /** The second transaction of send. It writes the row whatever its state has
      become since the claim. */
  function Report(b: Box, k: nat): Box
    requires k < |b.attempts| && b.attempts[k].row < |b.rows| && b.attempts[k].phase.Answered?
  {
    var b1 := Progress(b, k, Over);
    var i := b.attempts[k].row;
    match b.attempts[k].phase.answer
    case Accepted => Leave(b1, i, Sent)
    case Refused => SetState(b1, i, Pending)
    case Unknown => SetState(b1, i, Uncertain)
  }

  datatype Resolution = Delivered | NotDelivered | CancelSend

  predicate Resolvable(s: RowState) {
    s in {Uncertain, Pending, Failed}
  }

  function Resolve(b: Box, i: nat, jobFailed: bool, outcome: Resolution): Box
    requires i < |b.rows|
  {
    if !jobFailed || !Resolvable(b.rows[i].state) then b
    else match outcome
      case NotDelivered => SetState(b, i, Pending).(reopened := b.reopened + [i])
      case Delivered => Leave(b, i, Sent)
      case CancelSend => SetState(b, i, RowState.Cancelled)
  }

  // ------------------------------------------------------------------- matches

  predicate HasPhotoRow(rows: seq<Row>, m: Match) {
    exists i :: 0 <= i < |rows| && rows[i].photoOf == Some(m)
  }

  /** The upsert of matchPhoto: only a waiting match moves, and only forward. */
  function Queue(b: Box, m: Match, hasPhoto: bool): MatchState {
    if m !in b.matches then (if hasPhoto then QueuedPhoto else WaitingPhoto)
    else if b.matches[m] == WaitingPhoto && hasPhoto then QueuedPhoto
    else b.matches[m]
  }

  function MatchPhoto(b: Box, m: Match, mode: Mode, hasPhoto: bool): Box {
    var s := Queue(b, m, hasPhoto);
    var b1 := b.(matches := b.matches[m := s]);
    if hasPhoto && s == QueuedPhoto && !HasPhotoRow(b.rows, m) then Appended(b1, m.1, mode, Ready, Some(m)) else b1
  }

  /** A receiver says yes to a presented photo. */
  function TakeMatch(b: Box, m: Match): Box {
    b.(receivers := b.receivers[m.0 := m.1], claims := b.claims[m.0 := m.1],
       matches := map k | k in b.matches ::
         if k.0 != m.0 then b.matches[k] else if k == m then Interested else Unavailable)
  }

  // --------------------------------------------------------------------- steps

  datatype Event =
    | Inserted(phone: Phone, mode: Mode, deferred: bool)
    | Formatted(row: nat, ok: bool, alert: bool)
    | Claims(row: nat, live: bool, allowed: bool)
    | Calls(attempt: nat, answer: Answer)
    | GivesUp(attempt: nat, answer: Answer)
    | Reports(attempt: nat)
    | Dies(attempt: nat)
    | Resolves(row: nat, jobFailed: bool, outcome: Resolution)
    | Offers(offer: Match, mode: Mode, hasPhoto: bool)
    | Interests(claim: Match, open: bool)
    | LinksReceiver(request: nat, phone: Phone)

  /** What a step needs. Offers go to the candidates of a request without a
      receiver, or to those who wait for its photo. GivesUp is a failure before
      the call: a missing photo is a refusal, anything else is unknown. */
  predicate Enabled(b: Box, e: Event) {
    match e
    case Inserted(_, _, _) => true
    case Formatted(i, _, _) => i < |b.rows| && b.rows[i].format == AwaitingFormat
    case Claims(i, _, _) => i < |b.rows|
    case Calls(k, _) => k < |b.attempts| && b.attempts[k].phase.Claimed?
    case GivesUp(k, answer) => k < |b.attempts| && b.attempts[k].phase.Claimed? && answer != Accepted
    case Reports(k) => k < |b.attempts| && b.attempts[k].row < |b.rows| && b.attempts[k].phase.Answered?
    case Dies(k) => k < |b.attempts|
    case Resolves(i, _, _) => i < |b.rows|
    case Offers(m, _, _) => m.0 !in b.receivers || (m in b.matches && b.matches[m] == WaitingPhoto)
    case Interests(m, open) => open && m in b.matches && b.matches[m] == Presented && m.0 !in b.receivers
    case LinksReceiver(n, _) => n !in b.receivers
  }

  function Step(b: Box, e: Event): Box
    requires Enabled(b, e)
  {
    match e
    case Inserted(phone, mode, deferred) => Appended(b, phone, mode, if deferred then AwaitingFormat else Ready, None)
    case Formatted(i, ok, alert) =>
      b.(rows := b.rows[i := b.rows[i].(format := if ok then Ready else FormatFailed, alert := alert)])
    case Claims(i, live, allowed) => Claim(b, i, live, allowed).0
    case Calls(k, answer) => CallChannel(b, k, answer)
    case GivesUp(k, answer) => Progress(b, k, Answered(answer))
    case Reports(k) => Report(b, k)
    case Dies(k) => Progress(b, k, Over)
    case Resolves(i, jobFailed, outcome) => Resolve(b, i, jobFailed, outcome)
    case Offers(m, mode, hasPhoto) => MatchPhoto(b, m, mode, hasPhoto)
    case Interests(m, _) => TakeMatch(b, m)
    case LinksReceiver(n, phone) => b.(receivers := b.receivers[n := phone])
  }

  /** The boxes along a run, from the first to the last. */
  ghost predicate Run(bs: seq<Box>, es: seq<Event>) {
    && |bs| == |es| + 1
    && forall i :: 0 <= i < |es| ==> Enabled(bs[i], es[i]) && bs[i + 1] == Step(bs[i], es[i])
  }
}
