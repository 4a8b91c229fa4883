/** What holds of a conversation lane over every run: messages are settled in
    order of arrival and answered at most once, and none is stranded. */
module ConversationTheorems {
  import opened Conversation

  // -------------------------------------------------------------- settled once

  /** A settled message keeps its outcome. */
  ghost predicate OutcomesStay(l: Lane, k: Lane) {
    && |l.messages| <= |k.messages|
    && forall m :: 0 <= m < |l.messages| && l.messages[m] != Open ==> k.messages[m] == l.messages[m]
  }

  /** There is one reply row for each replied message, and none for others. */
  ghost predicate OneReplyEach(l: Lane) {
    && (forall m :: m in l.replies <==> 0 <= m < |l.messages| && l.messages[m] == Replied)
    && (forall i, j :: 0 <= i < j < |l.replies| ==> l.replies[i] != l.replies[j])
  }

  /** A message dropped in favour of a later one has a later one. */
  ghost predicate DroppedForLater(l: Lane) {
    forall m :: 0 <= m < |l.messages| && l.messages[m] in {Coalesced, Superseded} ==> m + 1 < |l.messages|
  }

  lemma SettleOnce(l: Lane, m: nat, outcome: Message)
    requires OneReplyEach(l) && outcome != Open
    ensures OneReplyEach(Settle(l, m, outcome))
    ensures DroppedForLater(l) && (outcome in {Replied, Silent} || Newer(l.messages, m)) ==>
              DroppedForLater(Settle(l, m, outcome))
  {}

  lemma MergeOnce(l: Lane, h: nat, seen: seq<nat>, plain: bool)
    requires h < |l.handlers| && seen != [] && OneReplyEach(l)
    ensures OneReplyEach(Merge(l, h, seen, plain))
    ensures DroppedForLater(l) ==> DroppedForLater(Merge(l, h, seen, plain))
  {
    var k := Merge(l, h, seen, plain);
    forall m | 0 <= m < |l.messages|
      ensures l.messages[m] == k.messages[m]
              || (l.messages[m] == Open && k.messages[m] == Coalesced && m + 1 < |l.messages|)
    {
      if l.messages[m] != k.messages[m] {
        var i :| 0 <= i < |seen| - 1 && seen[i] == m;
        assert seen[i] < seen[|seen| - 1] < |l.messages|;
      }
    }
  }

  lemma StepOnce(l: Lane, e: Event)
    requires Enabled(l, e) && OneReplyEach(l)
    ensures OneReplyEach(Step(l, e))
    ensures DroppedForLater(l) ==> DroppedForLater(Step(l, e))
  {
    match e
    case Merges(h, plain) => MergeOnce(l, h, l.handlers[h].phase.seen, plain);
    case Finishes(h, checkNewer, replies) =>
      var outcome := FinishOutcome(l, l.handlers[h].phase.target, checkNewer, replies);
      if outcome.Settles? { SettleOnce(l, l.handlers[h].phase.target, outcome.outcome); }
    case Closes(h, replies) => SettleOnce(l, l.handlers[h].phase.target, if replies then Replied else Silent);
    case Releases(h, replies, _) =>
      SettleOnce(l, l.jobs[l.handlers[h].job].message, if replies then Replied else Silent);
    case SweepSettles(h, replies, _) =>
      SettleOnce(l, l.jobs[l.handlers[h].job].message, if replies then Replied else Silent);
    case _ =>
  }

  lemma MergeStays(l: Lane, h: nat, seen: seq<nat>, plain: bool)
    requires h < |l.handlers| && seen != []
    ensures OutcomesStay(l, Merge(l, h, seen, plain))
  {
    assert forall i :: 0 <= i < |seen| - 1 ==> seen[i] in seen;
  }

  lemma StepStays(l: Lane, e: Event)
    requires Enabled(l, e)
    ensures OutcomesStay(l, Step(l, e))
  {
    if e.Merges? { MergeStays(l, e.handler, l.handlers[e.handler].phase.seen, e.plain); }
  }

  lemma StaysNext(ls: seq<Lane>, es: seq<Event>, i: nat)
    requires Run(ls, es) && i < |es|
    ensures OutcomesStay(ls[i], ls[i + 1])
  {
    StepStays(ls[i], es[i]);
  }

  /** A settled message keeps its outcome for good. */
  lemma {:induction false} SettledForGood(ls: seq<Lane>, es: seq<Event>, x: nat, m: nat, n: nat)
    requires Run(ls, es) && m <= n <= |es|
    requires x < |ls[m].messages| && ls[m].messages[x] != Open
    ensures x < |ls[n].messages| && ls[n].messages[x] == ls[m].messages[x]
  {
    if n == m {
    } else {
      SettledForGood(ls, es, x, m, n - 1);
      StaysNext(ls, es, n - 1);
    }
  }

  /** Whatever fails, overlaps or is retried: each message has at most one reply
      row, a coalesced, superseded or silently processed one has none, and a
      message is only dropped when a later one exists to answer it. */
  lemma {:induction false} AnsweredAtMostOnce(ls: seq<Lane>, es: seq<Event>, n: nat)
    requires Run(ls, es) && ls[0] == EMPTY && n <= |es|
    ensures OneReplyEach(ls[n]) && DroppedForLater(ls[n])
  {
    if n == 0 {
    } else {
      AnsweredAtMostOnce(ls, es, n - 1);
      StepOnce(ls[n - 1], es[n - 1]);
    }
  }

  // ------------------------------------------------------ in order, none stranded

  ghost predicate SettledIsPrefix(l: Lane) {
    forall i, j :: 0 <= i < j < |l.messages| && l.messages[i] == Open ==> l.messages[j] == Open
  }

  ghost predicate JobBefore(jobs: seq<Job>, m: nat, q: nat) {
    exists p :: 0 <= p < q && p < |jobs| && jobs[p].state != Gone && jobs[p].message == m
  }

  /** Every open message has a job, and before every job there are jobs for all
      older open messages. */
  ghost predicate NoneStranded(l: Lane) {
    && (forall m :: 0 <= m < |l.messages| && l.messages[m] == Open ==> JobBefore(l.jobs, m, |l.jobs|))
    && (forall q, m ::
          0 <= q < |l.jobs| && l.jobs[q].state != Gone && 0 <= m < l.jobs[q].message && OpenAt(l.messages, m) ==>
          JobBefore(l.jobs, m, q))
  }

  /** A handler works on the oldest open message. */
  ghost predicate HandlerInTurn(l: Lane, h: Handler) {
    && h.job < |l.jobs|
    && var t := l.jobs[h.job].message;
       && t < |l.messages| && !Older(l.messages, t)
       && match h.phase
          case Looked(seen) =>
            && seen != [] && seen[0] < |l.messages| && !Older(l.messages, seen[0])
            && (OpenAt(l.messages, t) ==> seen[0] == t)
          case Aimed(m) => m < |l.messages| && !Older(l.messages, m) && (OpenAt(l.messages, t) ==> m == t)
          case _ => true
  }

  /** Only the head job has been started. */
  ghost predicate OnlyHeadStarted(l: Lane) {
    forall p, q :: 0 <= p < q < |l.jobs| && l.jobs[q].state in {Active, Retrying, Failed} ==> l.jobs[p].state == Gone
  }

  ghost predicate LaneInv(l: Lane) {
    && SettledIsPrefix(l) && NoneStranded(l) && OnlyHeadStarted(l)
    && (forall q :: 0 <= q < |l.jobs| ==> l.jobs[q].message < |l.messages|)
    && (forall h :: 0 <= h < |l.handlers| ==> HandlerInTurn(l, l.handlers[h]))
  }

  /** A second job of the same message stands before the jobs of all newer ones. */
  ghost predicate Covered(jobs: seq<Job>, q: nat)
    requires q < |jobs|
  {
    exists p :: 0 <= p < |jobs| && p != q && Covers(jobs, q, p)
  }

  ghost predicate Covers(jobs: seq<Job>, q: nat, p: nat)
    requires q < |jobs| && p < |jobs|
  {
    && jobs[p].state != Gone && jobs[p].message == jobs[q].message
    && forall r :: 0 <= r < |jobs| && r != q && jobs[r].state != Gone && jobs[r].message > jobs[q].message ==> p < r
  }

  /** To let go of job q now would leave its open message to nobody. */
  ghost predicate LastHope(l: Lane, q: nat)
    requires q < |l.jobs|
  {
    OpenAt(l.messages, l.jobs[q].message) && !Covered(l.jobs, q)
  }

  /** The steps that strand a message: a handler's success reported for a job, or
      a deletion of failed jobs, while that job is its message's last hope. */
  ghost predicate Strands(l: Lane, e: Event) {
    match e
    case Completes(h) =>
      && h < |l.handlers| && l.handlers[h].job < |l.jobs|
      && l.jobs[l.handlers[h].job].state == Active && LastHope(l, l.handlers[h].job)
    case DeletesFailed => exists q :: 0 <= q < |l.jobs| && l.jobs[q].state == Failed && LastHope(l, q)
    case _ => false
  }

  /** k differs from l by settling messages oldest first, nothing else. */
  ghost predicate SettlesInOrder(l: Lane, k: Lane) {
    && k == l.(messages := k.messages, replies := k.replies)
    && |k.messages| == |l.messages|
    && (forall m :: 0 <= m < |l.messages| && k.messages[m] == Open ==> l.messages[m] == Open)
    && SettledIsPrefix(k)
  }

  lemma HandlerStays(l: Lane, k: Lane, h: Handler)
    requires SettlesInOrder(l, k) && HandlerInTurn(l, h)
    ensures HandlerInTurn(k, h)
  {
    assert forall m :: OpenAt(k.messages, m) ==> OpenAt(l.messages, m);
  }

  lemma SettlingKeeps(l: Lane, k: Lane)
    requires LaneInv(l) && SettlesInOrder(l, k)
    ensures LaneInv(k)
  {
    forall h | 0 <= h < |k.handlers| ensures HandlerInTurn(k, k.handlers[h]) {
      HandlerStays(l, k, l.handlers[h]);
    }
  }

  lemma SettleKeeps(l: Lane, m: nat, outcome: Message)
    requires LaneInv(l) && outcome != Open && !Older(l.messages, m)
    ensures LaneInv(Settle(l, m, outcome)) && !OpenAt(Settle(l, m, outcome).messages, m)
  {
    var k := Settle(l, m, outcome);
    if OpenAt(l.messages, m) {
      forall i, j | 0 <= i < j < |k.messages| && k.messages[i] == Open ensures k.messages[j] == Open {
        assert OpenAt(l.messages, i);
      }
      SettlingKeeps(l, k);
    }
  }

  /** A job may end when it is nobody's last hope. */
  lemma EndJobKeeps(l: Lane, q: nat, s: JobState)
    requires LaneInv(l) && q < |l.jobs| && (s == Gone ==> !LastHope(l, q))
    requires l.jobs[q].state != Gone && (s == Active ==> Head(l, q))
    requires s in {Retrying, Failed} ==> l.jobs[q].state in {Active, Failed}
    requires s != Created
    ensures LaneInv(SetJob(l, q, s))
  {
    var k := SetJob(l, q, s);
    forall m: nat, r: nat | OpenAt(l.messages, m) && Needed(l.jobs, q, m, r) ensures JobBefore(k.jobs, m, r) {
      StillBefore(l, q, s, m, r);
    }
    forall h | 0 <= h < |k.handlers| ensures HandlerInTurn(k, k.handlers[h]) {
      assert HandlerInTurn(l, l.handlers[h]);
    }
  }

  /** The places r before which message m needs a job once job q has changed. */
  ghost predicate Needed(jobs: seq<Job>, q: nat, m: nat, r: nat)
    requires q < |jobs|
  {
    && JobBefore(jobs, m, r)
    && (|| r == |jobs|
        || (r < |jobs| && jobs[r].state != Gone && m < jobs[r].message && (m == jobs[q].message ==> r != q)))
  }

  lemma StillBefore(l: Lane, q: nat, s: JobState, m: nat, r: nat)
    requires LaneInv(l) && q < |l.jobs| && (s == Gone ==> !LastHope(l, q))
    requires OpenAt(l.messages, m) && Needed(l.jobs, q, m, r)
    ensures JobBefore(SetJob(l, q, s).jobs, m, r)
  {
    var k := SetJob(l, q, s);
    if s == Gone && m == l.jobs[q].message {
      var p :| 0 <= p < |l.jobs| && p != q && Covers(l.jobs, q, p);
      assert k.jobs[p] == l.jobs[p] && p < r;
    } else {
      var p :| 0 <= p < r && p < |l.jobs| && l.jobs[p].state != Gone && l.jobs[p].message == m;
      assert k.jobs[p].state != Gone && k.jobs[p].message == m;
    }
  }

  /** The first job of a message. */
  lemma {:induction false} FirstJob(jobs: seq<Job>, m: nat, n: nat) returns (p: nat)
    requires JobBefore(jobs, m, n)
    ensures p < n && p < |jobs| && jobs[p].state != Gone && jobs[p].message == m && !JobBefore(jobs, m, p)
    decreases n
  {
    p :| 0 <= p < n && p < |jobs| && jobs[p].state != Gone && jobs[p].message == m;
    if JobBefore(jobs, m, p) { p := FirstJob(jobs, m, p); }
  }

  /** Ending a message's last hope strands it. */
  lemma EndJobStrands(l: Lane, q: nat)
    requires q < |l.jobs| && LastHope(l, q) && l.jobs[q].state != Gone
    ensures !NoneStranded(SetJob(l, q, Gone))
  {
    var k, m := SetJob(l, q, Gone), l.jobs[q].message;
    if NoneStranded(k) {
      assert k.messages[m] == Open && JobBefore(k.jobs, m, |k.jobs|);
      var p := FirstJob(k.jobs, m, |k.jobs|);
      assert p != q && l.jobs[p] == k.jobs[p];
      forall r | 0 <= r < |l.jobs| && r != q && l.jobs[r].state != Gone && l.jobs[r].message > m ensures p < r {
        assert k.jobs[r] == l.jobs[r] && JobBefore(k.jobs, m, r);
      }
      assert Covers(l.jobs, q, p);
      assert false;
    }
  }

  /** At most one job has failed, the head. */
  lemma DeletionIsOneJob(l: Lane)
    requires LaneInv(l)
    ensures (forall q :: 0 <= q < |l.jobs| ==> l.jobs[q].state != Failed) ==> WithoutFailed(l.jobs) == l.jobs
    ensures forall q :: 0 <= q < |l.jobs| && l.jobs[q].state == Failed ==>
              l.(jobs := WithoutFailed(l.jobs)) == SetJob(l, q, Gone)
  {}

  lemma PhaseKeeps(l: Lane, h: nat, p: Phase)
    requires LaneInv(l) && h < |l.handlers| && HandlerInTurn(l, l.handlers[h].(phase := p))
    ensures LaneInv(SetPhase(l, h, p))
  {
    var k := SetPhase(l, h, p);
    forall g | 0 <= g < |k.handlers| ensures HandlerInTurn(k, k.handlers[g]) {
      assert HandlerInTurn(l, l.handlers[g]);
    }
  }

  /** Another job for a message changes nothing: the older open ones have
      theirs. */
  lemma RequeueKeeps(l: Lane, m: nat)
    requires LaneInv(l) && m < |l.messages|
    ensures LaneInv(l.(jobs := l.jobs + [Job(m, Created)]))
  {
    var k := l.(jobs := l.jobs + [Job(m, Created)]);
    MoreJobs(l, k);
    forall h | 0 <= h < |k.handlers| ensures HandlerInTurn(k, k.handlers[h]) {
      assert HandlerInTurn(l, l.handlers[h]);
    }
  }

  lemma MoreJobs(l: Lane, k: Lane)
    requires |k.jobs| == |l.jobs| + 1 && k.jobs[..|l.jobs|] == l.jobs
    ensures forall q :: 0 <= q < |l.jobs| ==> k.jobs[q] == l.jobs[q]
    ensures forall m: nat, q: nat :: JobBefore(l.jobs, m, q) ==> JobBefore(k.jobs, m, q)
    ensures forall m: nat, q: nat :: q <= |l.jobs| && JobBefore(k.jobs, m, q) ==> JobBefore(l.jobs, m, q)
    ensures k.jobs[|l.jobs|].state != Gone ==> JobBefore(k.jobs, k.jobs[|l.jobs|].message, |k.jobs|)
  {
    assert forall q :: 0 <= q < |l.jobs| ==> k.jobs[..|l.jobs|][q] == k.jobs[q];
  }

  lemma ArriveKeeps(l: Lane)
    requires LaneInv(l)
    ensures LaneInv(Arrive(l))
  {
    var k := Arrive(l);
    MoreJobs(l, k);
    assert forall m :: 0 <= m < |l.messages| ==> (OpenAt(k.messages, m) <==> OpenAt(l.messages, m));
    forall h | 0 <= h < |k.handlers| ensures HandlerInTurn(k, k.handlers[h]) {
      assert HandlerInTurn(l, l.handlers[h]);
    }
  }

  /** Only the head job has failed, and its message has no older open one. */
  lemma SweepKeeps(l: Lane, q: nat)
    requires LaneInv(l) && q < |l.jobs| && l.jobs[q].state == Failed
    ensures LaneInv(l.(handlers := l.handlers + [Handler(q, Sweeping)]))
  {
    HeadIsOldest(l, q);
    var k := l.(handlers := l.handlers + [Handler(q, Sweeping)]);
    forall h | 0 <= h < |k.handlers| ensures HandlerInTurn(k, k.handlers[h]) {
      if h < |l.handlers| { assert HandlerInTurn(l, l.handlers[h]); }
    }
  }

  /** The head job's message has no older open one. */
  lemma HeadIsOldest(l: Lane, q: nat)
    requires LaneInv(l) && Head(l, q)
    ensures !Older(l.messages, l.jobs[q].message)
  {}

  lemma StartKeeps(l: Lane, q: nat)
    requires LaneInv(l) && Head(l, q)
    ensures LaneInv(SetJob(l, q, Active).(handlers := l.handlers + [Handler(q, Begun)]))
  {
    HeadIsOldest(l, q);
    EndJobKeeps(l, q, Active);
    var k := SetJob(l, q, Active);
    var r := k.(handlers := k.handlers + [Handler(q, Begun)]);
    forall h | 0 <= h < |r.handlers| ensures HandlerInTurn(r, r.handlers[h]) {
      if h < |k.handlers| { assert HandlerInTurn(k, k.handlers[h]); }
    }
  }

  lemma LeastPending(l: Lane, m: nat)
    requires OpenAt(l.messages, m)
    ensures Pending(l) != [] && Pending(l)[0] <= m
  {
    var ms := Pending(l);
    assert m in ms;
    var i :| 0 <= i < |ms| && ms[i] == m;
    assert ms[0] <= ms[i];
  }

  /** The first pending message is the open one with no older open one. */
  lemma FirstPending(l: Lane)
    ensures Pending(l) != [] ==> OpenAt(l.messages, Pending(l)[0]) && !Older(l.messages, Pending(l)[0])
    ensures forall m: nat :: OpenAt(l.messages, m) && !Older(l.messages, m) ==> Pending(l) != [] && Pending(l)[0] == m
  {
    var ms := Pending(l);
    forall m: nat | OpenAt(l.messages, m) ensures ms != [] && ms[0] <= m { LeastPending(l, m); }
    if ms != [] { assert ms[0] in ms; }
  }

  lemma LookKeeps(l: Lane, h: nat)
    requires LaneInv(l) && h < |l.handlers| && l.handlers[h].phase.Begun?
    ensures LaneInv(Look(l, h))
  {
    FirstPending(l);
    assert HandlerInTurn(l, l.handlers[h]);
    PhaseKeeps(l, h, if Pending(l) == [] then Returned else Looked(Pending(l)));
  }

  lemma MergeKeeps(l: Lane, h: nat, seen: seq<nat>, plain: bool)
    requires LaneInv(l) && h < |l.handlers| && l.handlers[h].phase == Looked(seen) && seen != []
    ensures LaneInv(Merge(l, h, seen, plain))
  {
    assert HandlerInTurn(l, l.handlers[h]);
    if plain && |seen| > 1 && Pending(l) == seen {
      CoalesceKeeps(l, h, seen);
    } else {
      PhaseKeeps(l, h, Aimed(seen[0]));
    }
  }

  /** Exactly the last open message stays open. */
  lemma CoalesceKeeps(l: Lane, h: nat, seen: seq<nat>)
    requires LaneInv(l) && h < |l.handlers| && l.handlers[h].phase == Looked(seen) && |seen| > 1 && Pending(l) == seen
    ensures LaneInv(SetPhase(l, h, Aimed(seen[|seen| - 1])).(
                      messages := SettleAll(l.messages, seen[..|seen| - 1], Coalesced)))
  {
    var last := seen[|seen| - 1];
    var k := l.(messages := SettleAll(l.messages, seen[..|seen| - 1], Coalesced));
    forall m | 0 <= m < |l.messages| ensures k.messages[m] == Open <==> m == last {
      OnlyLast(seen, m);
    }
    SettlingKeeps(l, k);
    assert HandlerInTurn(k, k.handlers[h]);
    PhaseKeeps(k, h, Aimed(last));
    assert SetPhase(l, h, Aimed(last)).(messages := k.messages) == SetPhase(k, h, Aimed(last));
  }

  lemma OnlyLast(seen: seq<nat>, m: nat)
    requires |seen| > 1 && forall i, j :: 0 <= i < j < |seen| ==> seen[i] < seen[j]
    ensures m in seen && m !in seen[..|seen| - 1] <==> m == seen[|seen| - 1]
  {
    if m == seen[|seen| - 1] {
      assert m in seen;
    } else if m in seen {
      var i :| 0 <= i < |seen| && seen[i] == m;
      assert seen[..|seen| - 1][i] == m;
    }
  }

  /** Settling the message a handler aims at ends its job's claim on the lane. */
  lemma CloseKeeps(l: Lane, h: nat, m: nat, outcome: Message)
    requires LaneInv(l) && h < |l.handlers| && l.handlers[h].phase == Aimed(m) && outcome != Open
    ensures LaneInv(SetPhase(Settle(l, m, outcome), h, Returned))
  {
    assert HandlerInTurn(l, l.handlers[h]);
    SettleKeeps(l, m, outcome);
    var k := Settle(l, m, outcome);
    assert HandlerInTurn(k, k.handlers[h]);
    PhaseKeeps(k, h, Returned);
  }

  lemma ReleaseKeeps(l: Lane, q: nat, replies: bool, written: bool)
    requires LaneInv(l) && q < |l.jobs| && !Older(l.messages, l.jobs[q].message)
    ensures LaneInv(Release(l, q, replies, written))
    ensures written ==> !OpenAt(Release(l, q, replies, written).messages, l.jobs[q].message)
  {
    if written { SettleKeeps(l, l.jobs[q].message, if replies then Replied else Silent); }
  }

  lemma DropKeeps(l: Lane, h: nat, s: JobState)
    requires LaneInv(l) && h < |l.handlers| && l.handlers[h].job < |l.jobs| && s in {Retrying, Gone}
    requires s == Gone && l.jobs[l.handlers[h].job].state == Active ==> !LastHope(l, l.handlers[h].job)
    ensures LaneInv(Drop(SetPhase(l, h, Dead), l.handlers[h].job, s))
  {
    assert HandlerInTurn(l, l.handlers[h]);
    PhaseKeeps(l, h, Dead);
    var k, q := SetPhase(l, h, Dead), l.handlers[h].job;
    assert LastHope(k, q) <==> LastHope(l, q);
    if k.jobs[q].state == Active { EndJobKeeps(k, q, s); }
  }

  lemma HandlerStepKeeps(l: Lane, e: Event)
    requires LaneInv(l) && Enabled(l, e) && !Strands(l, e)
    requires e.Finishes? || e.Closes? || e.Releases? || e.SweepSettles? || e.Throws? || e.Completes? || e.Dies?
    ensures LaneInv(Step(l, e))
  {
    var h := e.handler;
    assert HandlerInTurn(l, l.handlers[h]);
    if e.Finishes? {
      var outcome := FinishOutcome(l, l.handlers[h].phase.target, e.checkNewer, e.replies);
      if outcome.Settles? { CloseKeeps(l, h, l.handlers[h].phase.target, outcome.outcome); }
      else if outcome.AlreadySettled? { PhaseKeeps(l, h, Returned); }
    } else if e.Closes? {
      CloseKeeps(l, h, l.handlers[h].phase.target, if e.replies then Replied else Silent);
    } else if e.Releases? || e.SweepSettles? {
      ReleaseKeeps(l, l.handlers[h].job, e.replies, e.written);
      var k := Release(l, l.handlers[h].job, e.replies, e.written);
      assert HandlerInTurn(k, k.handlers[h]);
      PhaseKeeps(k, h, if e.Releases? then Returned else Dead);
    } else if e.Dies? {
      PhaseKeeps(l, h, Dead);
    } else {
      DropKeeps(l, h, if e.Throws? then Retrying else Gone);
    }
  }

  lemma DeletionKeeps(l: Lane)
    requires LaneInv(l) && !Strands(l, DeletesFailed)
    ensures LaneInv(Step(l, DeletesFailed))
  {
    DeletionIsOneJob(l);
    if q :| 0 <= q < |l.jobs| && l.jobs[q].state == Failed { EndJobKeeps(l, q, Gone); }
  }

  lemma StepKeeps(l: Lane, e: Event)
    requires LaneInv(l) && Enabled(l, e) && !Strands(l, e)
    ensures LaneInv(Step(l, e))
  {
    match e
    case Arrives => ArriveKeeps(l);
    case Starts(q) => StartKeeps(l, q);
    case Looks(h) => LookKeeps(l, h);
    case Merges(h, plain) => MergeKeeps(l, h, l.handlers[h].phase.seen, plain);
    case Expires(q, again) => EndJobKeeps(l, q, if again then Retrying else Failed);
    case Sweeps(q) => SweepKeeps(l, q);
    case DeletesFailed => DeletionKeeps(l);
    case AdminRetries(q) => EndJobKeeps(l, q, Retrying);
    case Requeues(m) => RequeueKeeps(l, m);
    case _ => HandlerStepKeeps(l, e);
  }

  /** The condition is exact, for every step: after it no message is stranded if
      and only if it did not let go of a message's last hope. */
  lemma StrandedExactlyWhenLetGo(l: Lane, e: Event)
    requires LaneInv(l) && Enabled(l, e)
    ensures NoneStranded(Step(l, e)) <==> !Strands(l, e)
    ensures LaneInv(Step(l, e)) <==> !Strands(l, e)
  {
    if !Strands(l, e) {
      StepKeeps(l, e);
    } else if e.Completes? {
      var k := SetPhase(l, e.handler, Dead);
      assert LastHope(k, l.handlers[e.handler].job);
      EndJobStrands(k, l.handlers[e.handler].job);
    } else {
      DeletionIsOneJob(l);
      var q :| 0 <= q < |l.jobs| && l.jobs[q].state == Failed && LastHope(l, q);
      EndJobStrands(l, q);
    }
  }

  ghost predicate SoundRun(ls: seq<Lane>, es: seq<Event>) {
    Run(ls, es) && ls[0] == EMPTY && forall i :: 0 <= i < |es| ==> !Strands(ls[i], es[i])
  }

  /** Through enqueueing, retries, crashes, expired handlers that go on, merged
      bursts, releases, heartbeat unblocking and startup recovery: the settled
      messages are a prefix of the arrivals, every open message has a job, and
      every job is preceded by jobs for all older open messages. */
  lemma {:induction false} SettledInOrderAndNoneStranded(ls: seq<Lane>, es: seq<Event>, n: nat)
    requires SoundRun(ls, es) && n <= |es|
    ensures LaneInv(ls[n])
    ensures SettledIsPrefix(ls[n]) && NoneStranded(ls[n])
  {
    if n == 0 {
    } else {
      SettledInOrderAndNoneStranded(ls, es, n - 1);
      StepKeeps(ls[n - 1], es[n - 1]);
    }
  }

  // ------------------------------------------------- runs that strand nothing

  /** The two ways to a stranded message: a release that could write nothing,
      and a deletion of a failed job that is its open message's last hope. */
  ghost predicate Careless(l: Lane, e: Event) {
    match e
    case Releases(h, _, written) =>
      && h < |l.handlers| && l.handlers[h].job < |l.jobs|
      && !written && OpenAt(l.messages, l.jobs[l.handlers[h].job].message)
    case DeletesFailed => Strands(l, e)
    case _ => false
  }

  /** A handler returns only when the message of its job is settled. */
  ghost predicate ReturnedIsSettled(l: Lane) {
    forall h :: 0 <= h < |l.handlers| && l.handlers[h].phase.Returned? && l.handlers[h].job < |l.jobs| ==>
      !OpenAt(l.messages, l.jobs[l.handlers[h].job].message)
  }

  lemma ReturnsSettled(l: Lane, e: Event, h: nat)
    requires LaneInv(l) && Enabled(l, e) && !Careless(l, e)
    requires h < |l.handlers| && !l.handlers[h].phase.Returned?
    requires h < |Step(l, e).handlers| && Step(l, e).handlers[h].phase.Returned?
    ensures !OpenAt(Step(l, e).messages, l.jobs[l.handlers[h].job].message)
  {
    assert HandlerInTurn(l, l.handlers[h]);
    FirstPending(l);
  }

  lemma StepSettles(l: Lane, e: Event)
    requires LaneInv(l) && Enabled(l, e) && !Careless(l, e) && ReturnedIsSettled(l)
    ensures ReturnedIsSettled(Step(l, e))
  {
    var k := Step(l, e);
    StepStays(l, e);
    forall h | 0 <= h < |k.handlers| && k.handlers[h].phase.Returned? && k.handlers[h].job < |k.jobs|
      ensures !OpenAt(k.messages, k.jobs[k.handlers[h].job].message)
    {
      JobsStay(l, e, h);
      assert HandlerInTurn(l, l.handlers[h]);
      if !l.handlers[h].phase.Returned? { ReturnsSettled(l, e, h); }
    }
  }

  lemma JobsStay(l: Lane, e: Event, h: nat)
    requires Enabled(l, e) && h < |Step(l, e).handlers| && Step(l, e).handlers[h].phase.Returned?
    ensures h < |l.handlers| && Step(l, e).handlers[h].job == l.handlers[h].job
    ensures var q := l.handlers[h].job;
            q < |l.jobs| ==> (q < |Step(l, e).jobs| && Step(l, e).jobs[q].message == l.jobs[q].message)
  {}

  /** A run without those two strands nothing: a handler that reports success
      has settled the message of its job, expired or not. */
  lemma {:induction false} CarefulRunIsSound(ls: seq<Lane>, es: seq<Event>, n: nat)
    requires Run(ls, es) && ls[0] == EMPTY && n <= |es|
    requires forall i :: 0 <= i < |es| ==> !Careless(ls[i], es[i])
    ensures LaneInv(ls[n]) && ReturnedIsSettled(ls[n])
    ensures n < |es| ==> !Strands(ls[n], es[n])
  {
    if n == 0 {
    } else {
      CarefulRunIsSound(ls, es, n - 1);
      StepKeeps(ls[n - 1], es[n - 1]);
      StepSettles(ls[n - 1], es[n - 1]);
    }
  }

  /** So the reply rows are created in order of arrival. */
  ghost predicate RepliesInOrder(l: Lane) {
    forall i, j :: 0 <= i < j < |l.replies| ==> l.replies[i] < l.replies[j]
  }

  lemma SettleKeepsOrder(l: Lane, m: nat, outcome: Message)
    requires LaneInv(l) && OneReplyEach(l) && RepliesInOrder(l)
    ensures RepliesInOrder(Settle(l, m, outcome))
  {
    if OpenAt(l.messages, m) && outcome == Replied {
      forall i | 0 <= i < |l.replies| ensures l.replies[i] < m {
        assert l.replies[i] in l.replies;
      }
    }
  }

  lemma StepKeepsOrder(l: Lane, e: Event)
    requires LaneInv(l) && Enabled(l, e) && OneReplyEach(l) && RepliesInOrder(l)
    ensures RepliesInOrder(Step(l, e))
  {
    match e
    case Finishes(h, checkNewer, replies) =>
      var outcome := FinishOutcome(l, l.handlers[h].phase.target, checkNewer, replies);
      if outcome.Settles? { SettleKeepsOrder(l, l.handlers[h].phase.target, outcome.outcome); }
    case Closes(h, replies) => SettleKeepsOrder(l, l.handlers[h].phase.target, if replies then Replied else Silent);
    case Releases(h, replies, _) =>
      SettleKeepsOrder(l, l.jobs[l.handlers[h].job].message, if replies then Replied else Silent);
    case SweepSettles(h, replies, _) =>
      SettleKeepsOrder(l, l.jobs[l.handlers[h].job].message, if replies then Replied else Silent);
    case _ =>
  }

  lemma {:induction false} RepliesFollowArrivals(ls: seq<Lane>, es: seq<Event>, n: nat)
    requires SoundRun(ls, es) && n <= |es|
    ensures RepliesInOrder(ls[n])
  {
    if n == 0 {
    } else {
      RepliesFollowArrivals(ls, es, n - 1);
      SettledInOrderAndNoneStranded(ls, es, n - 1);
      AnsweredAtMostOnce(ls, es, n - 1);
      StepKeepsOrder(ls[n - 1], es[n - 1]);
    }
  }

  /** finish never meets its earlier_message_pending error: the handler aims at
      the oldest open message, and stays right. */
  lemma NoEarlierMessageIsPending(ls: seq<Lane>, es: seq<Event>, n: nat)
    requires SoundRun(ls, es) && n < |es| && es[n].Finishes?
    ensures var m := ls[n].handlers[es[n].handler].phase.target;
            !FinishOutcome(ls[n], m, es[n].checkNewer, es[n].replies).EarlierPending?
  {
    SettledInOrderAndNoneStranded(ls, es, n);
    assert HandlerInTurn(ls[n], ls[n].handlers[es[n].handler]);
  }

  // -------------------------------------------------------- when it is stranded

  /** An unwritten release strands the message as soon as it is reported, when
      the job was the message's last hope; otherwise it does not. */
  lemma UnwrittenReleaseStrands(l: Lane, h: nat, replies: bool)
    requires LaneInv(l) && Enabled(l, Releases(h, replies, false)) && l.jobs[l.handlers[h].job].state == Active
    ensures var k := Step(l, Releases(h, replies, false));
            && Enabled(k, Completes(h))
            && (NoneStranded(Step(k, Completes(h))) <==> !LastHope(l, l.handlers[h].job))
  {
    var k := Step(l, Releases(h, replies, false));
    StepKeeps(l, Releases(h, replies, false));
    StrandedExactlyWhenLetGo(k, Completes(h));
    assert LastHope(k, l.handlers[h].job) <==> LastHope(l, l.handlers[h].job);
  }

  ghost predicate Next(l: Lane, e: Event, k: Lane) {
    Enabled(l, e) && Step(l, e) == k
  }

  /** A release whose every write fails: the job is completed all the same. */
  lemma SwallowedReleaseStrands(replies: bool) returns (ls: seq<Lane>, es: seq<Event>)
    ensures Run(ls, es) && ls[0] == EMPTY
    ensures es == [Arrives, Starts(0), Releases(0, replies, false), Completes(0)] && !NoneStranded(ls[4])
  {
    es := [Arrives, Starts(0), Releases(0, replies, false), Completes(0)];
    var l1 := Lane([Open], [Job(0, Created)], [], []);
    var l2 := Lane([Open], [Job(0, Active)], [Handler(0, Begun)], []);
    var l3 := Lane([Open], [Job(0, Active)], [Handler(0, Returned)], []);
    var l4 := Lane([Open], [Job(0, Gone)], [Handler(0, Dead)], []);
    assert Next(EMPTY, es[0], l1) && Next(l1, es[1], l2) && Next(l2, es[2], l3) && Next(l3, es[3], l4);
    assert l4.messages[0] == Open && !JobBefore(l4.jobs, 0, 1);
    ls := [EMPTY, l1, l2, l3, l4];
  }

  /** The head job of message 0 has failed while message 1 waits. */
  const BLOCKED := Lane([Open, Open], [Job(0, Failed), Job(1, Created)], [Handler(0, Begun)], [])

  lemma FailedHead() returns (ls: seq<Lane>, es: seq<Event>)
    ensures Run(ls, es) && ls[0] == EMPTY && |es| == 4 && ls[4] == BLOCKED
  {
    var l1 := Lane([Open], [Job(0, Created)], [], []);
    var l2 := Lane([Open], [Job(0, Active)], [Handler(0, Begun)], []);
    var l3 := Lane([Open], [Job(0, Failed)], [Handler(0, Begun)], []);
    assert Next(EMPTY, Arrives, l1) && Next(l1, Starts(0), l2);
    assert Next(l2, Expires(0, false), l3) && Next(l3, Arrives, BLOCKED);
    ls, es := [EMPTY, l1, l2, l3, BLOCKED], [Arrives, Starts(0), Expires(0, false), Arrives];
  }

  /** release-queue on a failed job whose message is open: the message has no
      job any more, and a later one is settled before it. */
  lemma ReleaseQueueStrands() returns (ls: seq<Lane>, es: seq<Event>)
    ensures Run(ls, es) && ls[0] == EMPTY && |es| == 7 && es[4] == DeletesFailed
    ensures !NoneStranded(ls[5]) && !SettledIsPrefix(ls[7])
  {
    ls, es := FailedHead();
    var l5 := BLOCKED.(jobs := [Job(0, Gone), Job(1, Created)]);
    var l6 := l5.(jobs := [Job(0, Gone), Job(1, Active)], handlers := [Handler(0, Begun), Handler(1, Begun)]);
    var l7 := l6.(messages := [Open, Replied], handlers := [Handler(0, Begun), Handler(1, Returned)], replies := [1]);
    assert Next(BLOCKED, DeletesFailed, l5) && Next(l5, Starts(1), l6) && Next(l6, Releases(1, true, true), l7);
    assert l5.messages[0] == Open && !JobBefore(l5.jobs, 0, 2);
    assert l7.messages[0] == Open && l7.messages[1] == Replied;
    ls, es := ls + [l5, l6, l7], es + [DeletesFailed, Starts(1), Releases(1, true, true)];
  }
}
