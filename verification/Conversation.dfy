/** One phone's conversation lane (Engine.processNext, finish, releaseFailedTurn
    and the worker, recovery and heartbeat code of src/application/runtime.ts).
    The queue keeps key_strict_fifo order: only the first job that is still
    there may run. A handler may go on after its job has expired. A Lane is the
    committed state between two transactions, with the handlers. */
module Conversation {

  /** What has become of a message. Silent covers every way of processing it
      without a reply row. */
  datatype Message = Open | Replied | Silent | Coalesced | Superseded

  /** A job keeps its place; Gone marks a completed or deleted one. */
  datatype JobState = Created | Active | Retrying | Failed | Gone
  datatype Job = Job(message: nat, state: JobState)

  /** How far a handler has come: it has its job, it has read the open messages,
      it has settled on the one to answer, its code has returned, or it died. A
      sweeping one is the heartbeat's treatment of a job it has read as failed. */
  datatype Phase = Begun | Looked(seen: seq<nat>) | Aimed(target: nat) | Returned | Dead | Sweeping
  datatype Handler = Handler(job: nat, phase: Phase)

  datatype Lane = Lane(messages: seq<Message>, jobs: seq<Job>, handlers: seq<Handler>, replies: seq<nat>)

  const EMPTY := Lane([], [], [], [])

  predicate Working(h: Handler) {
    h.phase.Begun? || h.phase.Looked? || h.phase.Aimed?
  }

  predicate OpenAt(messages: seq<Message>, m: nat) {
    m < |messages| && messages[m] == Open
  }

  predicate Older(messages: seq<Message>, m: nat) {
    exists k :: 0 <= k < m && OpenAt(messages, k)
  }

  predicate Newer(messages: seq<Message>, m: nat) {
    exists k :: m < k < |messages| && OpenAt(messages, k)
  }

  /** The pending query: the open messages in order of arrival. */
  function OpenUpTo(messages: seq<Message>, n: nat): (ms: seq<nat>)
    requires n <= |messages|
    ensures forall m: nat :: m in ms <==> m < n && messages[m] == Open
    ensures forall i :: 0 <= i < |ms| ==> ms[i] < n
    ensures forall i, j :: 0 <= i < j < |ms| ==> ms[i] < ms[j]
  {
    if n == 0 then []
    else if messages[n - 1] == Open then OpenUpTo(messages, n - 1) + [n - 1]
    else OpenUpTo(messages, n - 1)
  }

  function Pending(l: Lane): seq<nat> {
    OpenUpTo(l.messages, |l.messages|)
  }

  /** The first job that is still there. */
  predicate Head(l: Lane, q: nat) {
    && q < |l.jobs| && l.jobs[q].state != Gone
    && forall p :: 0 <= p < q ==> l.jobs[p].state == Gone
  }

  function SetJob(l: Lane, q: nat, s: JobState): Lane
    requires q < |l.jobs|
  {
    l.(jobs := l.jobs[q := l.jobs[q].(state := s)])
  }

  function SetPhase(l: Lane, h: nat, p: Phase): Lane
    requires h < |l.handlers|
  {
    l.(handlers := l.handlers[h := l.handlers[h].(phase := p)])
  }

  /** Settle one message; only an open one changes, and only a reply writes a
      row. */
  function Settle(l: Lane, m: nat, outcome: Message): Lane {
    if !OpenAt(l.messages, m) then l
    else l.(messages := l.messages[m := outcome], replies := if outcome == Replied then l.replies + [m] else l.replies)
  }

  function SettleAll(messages: seq<Message>, ms: seq<nat>, outcome: Message): (out: seq<Message>)
    ensures |out| == |messages|
    ensures forall m :: 0 <= m < |messages| ==> out[m] == if m in ms then outcome else messages[m]
  {
    seq(|messages|, m requires 0 <= m < |messages| => if m in ms then outcome else messages[m])
  }

  // --------------------------------------------------------- the lane's steps

  /** A message is identified: it gets a job in the same transaction. */
  function Arrive(l: Lane): Lane {
    l.(messages := l.messages + [Open], jobs := l.jobs + [Job(|l.messages|, Created)])
  }

  /** The pending query of processNext; nothing open ends the handler. */
  function Look(l: Lane, h: nat): Lane
    requires h < |l.handlers|
  {
    SetPhase(l, h, if Pending(l) == [] then Returned else Looked(Pending(l)))
  }

  /** Merge a burst of plain texts into its last message, unless something has
      arrived or been settled since; otherwise answer the oldest message. */
  function Merge(l: Lane, h: nat, seen: seq<nat>, plain: bool): Lane
    requires h < |l.handlers| && seen != []
  {
    if plain && |seen| > 1 && Pending(l) == seen then
      SetPhase(l, h, Aimed(seen[|seen| - 1])).(messages := SettleAll(l.messages, seen[..|seen| - 1], Coalesced))
    else SetPhase(l, h, Aimed(seen[0]))
  }

  /** finish: a settled message is left alone, an older open one throws, and a
      newer open one supersedes when that is checked. */
  datatype Finish = AlreadySettled | EarlierPending | Settles(outcome: Message)

  function FinishOutcome(l: Lane, m: nat, checkNewer: bool, replies: bool): Finish {
    if !OpenAt(l.messages, m) then AlreadySettled
    else if Older(l.messages, m) then EarlierPending
    else if checkNewer && Newer(l.messages, m) then Settles(Superseded)
    else Settles(if replies then Replied else Silent)
  }

  function FinishTurn(l: Lane, h: nat, m: nat, checkNewer: bool, replies: bool): Lane
    requires h < |l.handlers|
  {
    match FinishOutcome(l, m, checkNewer, replies)
    case AlreadySettled => SetPhase(l, h, Returned)
    case EarlierPending => l
    case Settles(outcome) => SetPhase(Settle(l, m, outcome), h, Returned)
  }

  datatype Event =
    | Arrives
    | Starts(job: nat)
    | Looks(handler: nat)
    | Merges(handler: nat, plain: bool)
    | Finishes(handler: nat, checkNewer: bool, replies: bool)
    | Closes(handler: nat, replies: bool)
    | Throws(handler: nat)
    | Releases(handler: nat, replies: bool, written: bool)
    | Completes(handler: nat)
    | Dies(handler: nat)
    | Expires(job: nat, again: bool)
    | Sweeps(job: nat)
    | SweepSettles(handler: nat, replies: bool, written: bool)
    | DeletesFailed
    | AdminRetries(job: nat)
    | Requeues(message: nat)

  /** What a step needs. Closes is a settlement without finish's checks: access
      denied, or an answer that could not be understood. */
  predicate Enabled(l: Lane, e: Event) {
    match e
    case Arrives => true
    case Starts(q) => Head(l, q) && l.jobs[q].state in {Created, Retrying}
    case Looks(h) => h < |l.handlers| && l.handlers[h].phase.Begun?
    case Merges(h, _) => h < |l.handlers| && l.handlers[h].phase.Looked? && l.handlers[h].phase.seen != []
    case Finishes(h, _, _) => h < |l.handlers| && l.handlers[h].phase.Aimed?
    case Closes(h, _) => h < |l.handlers| && l.handlers[h].phase.Aimed?
    case Throws(h) => h < |l.handlers| && l.handlers[h].job < |l.jobs| && Working(l.handlers[h])
    case Releases(h, _, _) => h < |l.handlers| && l.handlers[h].job < |l.jobs| && Working(l.handlers[h])
    case Completes(h) => h < |l.handlers| && l.handlers[h].job < |l.jobs| && l.handlers[h].phase.Returned?
    case Dies(h) => h < |l.handlers|
    case Expires(q, _) => q < |l.jobs| && l.jobs[q].state == Active
    case Sweeps(q) => q < |l.jobs| && l.jobs[q].state == Failed
    case SweepSettles(h, _, _) => h < |l.handlers| && l.handlers[h].job < |l.jobs| && l.handlers[h].phase.Sweeping?
    case DeletesFailed => true
    case AdminRetries(q) => q < |l.jobs| && l.jobs[q].state == Failed
    case Requeues(m) => m < |l.messages|
  }

  /** Releases is the exhausted retry: releaseFailedTurn settles the message of
      the job and the handler returns, even when nothing could be written. The
      heartbeat reads a failed job, settles its message in the same way, and
      then deletes what has failed on the key: three transactions. The admin's
      release-queue is the deletion alone. Requeues is one job of startup
      recovery, for a message that was open when it was read. */
  function Step(l: Lane, e: Event): Lane
    requires Enabled(l, e)
  {
    match e
    case Arrives => Arrive(l)
    case Starts(q) => SetJob(l, q, Active).(handlers := l.handlers + [Handler(q, Begun)])
    case Looks(h) => Look(l, h)
    case Merges(h, plain) => Merge(l, h, l.handlers[h].phase.seen, plain)
    case Finishes(h, checkNewer, replies) => FinishTurn(l, h, l.handlers[h].phase.target, checkNewer, replies)
    case Closes(h, replies) =>
      SetPhase(Settle(l, l.handlers[h].phase.target, if replies then Replied else Silent), h, Returned)
    case Throws(h) => Drop(SetPhase(l, h, Dead), l.handlers[h].job, Retrying)
    case Releases(h, replies, written) => SetPhase(Release(l, l.handlers[h].job, replies, written), h, Returned)
    case Completes(h) => Drop(SetPhase(l, h, Dead), l.handlers[h].job, Gone)
    case Dies(h) => SetPhase(l, h, Dead)
    case Expires(q, again) => SetJob(l, q, if again then Retrying else Failed)
    case Sweeps(q) => l.(handlers := l.handlers + [Handler(q, Sweeping)])
    case SweepSettles(h, replies, written) => SetPhase(Release(l, l.handlers[h].job, replies, written), h, Dead)
    case DeletesFailed => l.(jobs := WithoutFailed(l.jobs))
    case AdminRetries(q) => SetJob(l, q, Retrying)
    case Requeues(m) => l.(jobs := l.jobs + [Job(m, Created)])
  }

  /** The queue takes a handler's word only while the job counts as running. */
  function Drop(l: Lane, q: nat, s: JobState): Lane
    requires q < |l.jobs|
  {
    if l.jobs[q].state == Active then SetJob(l, q, s) else l
  }

  /** releaseSingleton for the state failed: every failed job of the key. */
  function WithoutFailed(jobs: seq<Job>): (js: seq<Job>)
    ensures |js| == |jobs|
    ensures forall q :: 0 <= q < |jobs| ==>
              js[q] == if jobs[q].state == Failed then jobs[q].(state := Gone) else jobs[q]
  {
    seq(|jobs|, q requires 0 <= q < |jobs| => if jobs[q].state == Failed then jobs[q].(state := Gone) else jobs[q])
  }

  function Release(l: Lane, q: nat, replies: bool, written: bool): Lane
    requires q < |l.jobs|
  {
    if written then Settle(l, l.jobs[q].message, if replies then Replied else Silent) else l
  }

  ghost predicate Run(ls: seq<Lane>, es: seq<Event>) {
    && |ls| == |es| + 1
    && forall i :: 0 <= i < |es| ==> Enabled(ls[i], es[i]) && ls[i + 1] == Step(ls[i], es[i])
  }
}
