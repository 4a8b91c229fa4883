/** The integration dispatcher (src/application/runtime.ts and the admin's
    replay): the deliveries of one integration in event order, claimed one at a
    time under a lease, reported by workers that may be late, retried a bounded
    number of times. A Dispatch is the committed state with the workers. */
module Integration {
  import opened Counting

  const MAX_ATTEMPTS := 3

  datatype State = Pending | Active | Delivered | DeadLetter

  /** attempts is the stored column. The rest is history: leases recovered since
      the last replay and ever, the workers left over at the last replay that
      could still put the row back and those that had not called yet, and the
      adapter calls since it. */
  datatype Row = Row(
    state: State, attempts: nat, recovered: nat, everRecovered: nat, mayRetry: nat, mayCall: nat, calls: nat)

  /** How an adapter call ends. */
  datatype Result = Success | Failure(ambiguous: bool, retryable: bool)

  datatype Phase = Claimed | Finished(result: Result) | Gone

  /** attempt is the number the claim returned. */
  datatype Worker = Worker(row: nat, attempt: nat, phase: Phase)

  datatype Dispatch = Dispatch(rows: seq<Row>, workers: seq<Worker>)

  const EMPTY := Dispatch([], [])
  const NEW_ROW := Row(Pending, 0, 0, 0, 0, 0, 0)

  predicate Running(w: Worker) {
    !w.phase.Gone?
  }

  predicate AllDeliveredBefore(rows: seq<Row>, i: nat)
    requires i <= |rows|
  {
    forall j :: 0 <= j < i ==> rows[j].state == Delivered
  }

  function SetRow(d: Dispatch, i: nat, r: Row): Dispatch
    requires i < |d.rows|
  {
    d.(rows := d.rows[i := r])
  }

  function SetPhase(d: Dispatch, w: nat, p: Phase): Dispatch
    requires w < |d.workers|
  {
    d.(workers := d.workers[w := d.workers[w].(phase := p)])
  }

  /** The claiming update: pending, due, and everything before it delivered. */
  function Claim(d: Dispatch, i: nat, due: bool): Dispatch
    requires i < |d.rows|
  {
    var r := d.rows[i];
    if r.state != Pending || !due || !AllDeliveredBefore(d.rows, i) then d
    else SetRow(d, i, r.(state := Active, attempts := r.attempts + 1)).(
           workers := d.workers + [Worker(i, r.attempts + 1, Claimed)])
  }

  /** What a report writes to an active row; another row it leaves alone. */
  function Reported(attempt: nat, result: Result): State {
    match result
    case Success => Delivered
    case Failure(ambiguous, retryable) =>
      if ambiguous || !retryable || attempt >= MAX_ATTEMPTS then DeadLetter else Pending
  }

  function Report(d: Dispatch, w: nat): Dispatch
    requires w < |d.workers| && d.workers[w].row < |d.rows| && d.workers[w].phase.Finished?
  {
    var v := d.workers[w];
    var r := d.rows[v.row];
    var d1 := SetPhase(d, w, Gone);
    if r.state != Active then d1 else SetRow(d1, v.row, r.(state := Reported(v.attempt, v.phase.result)))
  }

  /** The adapter call, counted on its row. */
  function CallAdapter(d: Dispatch, w: nat, result: Result): Dispatch
    requires w < |d.workers| && d.workers[w].row < |d.rows|
  {
    var i := d.workers[w].row;
    SetRow(SetPhase(d, w, Finished(result)), i, d.rows[i].(calls := d.rows[i].calls + 1))
  }

  /** A stale lease is taken back. */
  function Recover(d: Dispatch, i: nat): Dispatch
    requires i < |d.rows|
  {
    var r := d.rows[i];
    if r.state != Active then d
    else SetRow(d, i, r.(state := Pending, recovered := r.recovered + 1, everRecovered := r.everRecovered + 1))
  }


  /** The recovery update: every stale row among the first n. */
  function RecoverAll(d: Dispatch, stale: set<nat>, n: nat): (c: Dispatch)
    requires n <= |d.rows|
    ensures |c.rows| == |d.rows| && c.workers == d.workers
  {
    if n == 0 then d
    else
      var c := RecoverAll(d, stale, n - 1);
      if n - 1 in stale then Recover(c, n - 1) else c
  }

  function Occupies(i: nat): Worker -> bool {
    (w: Worker) => w.row == i && Running(w)
  }

  /** The worker's report may put the row back to pending. */
  function MayRetry(i: nat): Worker -> bool {
    (w: Worker) =>
      && w.row == i && w.attempt < MAX_ATTEMPTS
      && (w.phase.Claimed? || (w.phase.Finished? && Reported(w.attempt, w.phase.result) == Pending))
  }

  /** The worker has not called the adapter yet. */
  function MayCall(i: nat): Worker -> bool {
    (w: Worker) => w.row == i && w.phase.Claimed?
  }

  function Replay(d: Dispatch, i: nat): Dispatch
    requires i < |d.rows|
  {
    var r := d.rows[i];
    if r.state != DeadLetter then d
    else
      var mayRetry, mayCall := Count(d.workers, MayRetry(i)), Count(d.workers, MayCall(i));
      SetRow(d, i, Row(Pending, 0, 0, r.everRecovered, mayRetry, mayCall, 0))
  }

  /** GivesUp is a worker without an adapter for the event: no call, a terminal
      failure. */
  datatype Event =
    | Inserted
    | Claims(row: nat, due: bool)
    | Calls(worker: nat, result: Result)
    | GivesUp(worker: nat)
    | Reports(worker: nat)
    | Dies(worker: nat)
    | Recovers(row: nat)
    | Replays(row: nat)

  predicate Enabled(d: Dispatch, e: Event) {
    match e
    case Inserted => true
    case Claims(i, _) => i < |d.rows|
    case Calls(w, _) => w < |d.workers| && d.workers[w].phase.Claimed? && d.workers[w].row < |d.rows|
    case GivesUp(w) => w < |d.workers| && d.workers[w].phase.Claimed?
    case Reports(w) => w < |d.workers| && d.workers[w].phase.Finished? && d.workers[w].row < |d.rows|
    case Dies(w) => w < |d.workers|
    case Recovers(i) => i < |d.rows|
    case Replays(i) => i < |d.rows|
  }

  function Step(d: Dispatch, e: Event): Dispatch
    requires Enabled(d, e)
  {
    match e
    case Inserted => d.(rows := d.rows + [NEW_ROW])
    case Claims(i, due) => Claim(d, i, due)
    case Calls(w, result) => CallAdapter(d, w, result)
    case GivesUp(w) => SetPhase(d, w, Finished(Failure(false, false)))
    case Reports(w) => Report(d, w)
    case Dies(w) => SetPhase(d, w, Gone)
    case Recovers(i) => Recover(d, i)
    case Replays(i) => Replay(d, i)
  }

  ghost predicate Run(ds: seq<Dispatch>, es: seq<Event>) {
    && |ds| == |es| + 1
    && forall i :: 0 <= i < |es| ==> Enabled(ds[i], es[i]) && ds[i + 1] == Step(ds[i], es[i])
  }
}
