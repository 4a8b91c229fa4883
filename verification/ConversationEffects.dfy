/** What each step of a lane does to its messages, reply rows and jobs, told by the
    events themselves, and that a message gets its reply. */
module ConversationEffects {
  import opened Conversation

  // ------------------------------------------------------------ what messages become

  /** The handler is about to finish, or to close, message m. */
  predicate At(l: Lane, h: nat, m: nat) {
    h < |l.handlers| && l.handlers[h].phase == Aimed(m)
  }

  predicate NothingOlder(l: Lane, m: nat)
    requires m < |l.messages|
  {
    forall k :: 0 <= k < m ==> l.messages[k] != Open
  }

  predicate NothingNewer(l: Lane, m: nat)
    requires m < |l.messages|
  {
    forall k :: m < k < |l.messages| ==> l.messages[k] != Open
  }

  /** finish comes to the end of the turn of m: m is open, nothing older is. */
  predicate TurnEnds(l: Lane, e: Event, m: nat)
    requires m < |l.messages|
  {
    e.Finishes? && At(l, e.handler, m) && l.messages[m] == Open && NothingOlder(l, m)
  }

  /** What settles m without finish's checks: a closing, or a release or a sweep
      that can write, of a job of m. */
  predicate SettledBy(l: Lane, e: Event, m: nat, replies: bool)
    requires m < |l.messages|
  {
    && l.messages[m] == Open
    && (|| (e.Closes? && At(l, e.handler, m) && e.replies == replies)
        || (e.Releases? && JobOf(l, e.handler, m) && e.written && e.replies == replies)
        || (e.SweepSettles? && JobOf(l, e.handler, m) && e.written && e.replies == replies))
  }

  predicate JobOf(l: Lane, h: nat, m: nat) {
    h < |l.handlers| && l.handlers[h].job < |l.jobs| && l.jobs[l.handlers[h].job].message == m
  }

  /** A burst of plain texts that nobody has touched since it was read. */
  predicate MergesBurst(l: Lane, e: Event) {
    && e.Merges? && e.plain && e.handler < |l.handlers| && l.handlers[e.handler].phase.Looked?
    && |l.handlers[e.handler].phase.seen| > 1 && Pending(l) == l.handlers[e.handler].phase.seen
  }

  predicate Becomes(l: Lane, e: Event, m: nat, s: Message)
    requires m < |l.messages|
  {
    match s
    case Replied =>
      || (TurnEnds(l, e, m) && e.replies && (NothingNewer(l, m) || !e.checkNewer))
      || SettledBy(l, e, m, true)
    case Silent =>
      || (TurnEnds(l, e, m) && !e.replies && (NothingNewer(l, m) || !e.checkNewer))
      || SettledBy(l, e, m, false)
    case Superseded => TurnEnds(l, e, m) && e.checkNewer && !NothingNewer(l, m)
    case Coalesced => MergesBurst(l, e) && l.messages[m] == Open && !NothingNewer(l, m)
    case Open => false
  }

  predicate MessageTold(l: Lane, e: Event, m: nat, s: Message, q: Message)
    requires m < |l.messages|
  {
    (Becomes(l, e, m, s) ==> q == s) && (q != l.messages[m] ==> Becomes(l, e, m, q))
  }

  lemma FinishBecomes(l: Lane, e: Event, m: nat, s: Message)
    requires Enabled(l, e) && e.Finishes? && m < |l.messages|
    ensures |Step(l, e).messages| == |l.messages| && MessageTold(l, e, m, s, Step(l, e).messages[m])
  {
    var target := l.handlers[e.handler].phase.target;
    if target < |l.messages| { AroundExactly(l, target); }
  }

  lemma AroundExactly(l: Lane, m: nat)
    requires m < |l.messages|
    ensures Older(l.messages, m) <==> !NothingOlder(l, m)
    ensures Newer(l.messages, m) <==> !NothingNewer(l, m)
  {
    if k: nat :| k < m && l.messages[k] == Open { assert OpenAt(l.messages, k); }
    if k: nat :| m < k < |l.messages| && l.messages[k] == Open { assert OpenAt(l.messages, k); }
  }

  /** The last open message stays open, all others are merged into it. */
  lemma MergedAllButLast(l: Lane, m: nat)
    requires m < |l.messages| && Pending(l) != []
    ensures var seen := Pending(l);
            m in seen[..|seen| - 1] <==> l.messages[m] == Open && !NothingNewer(l, m)
  {
    var seen := Pending(l);
    var last := seen[|seen| - 1];
    if m in seen[..|seen| - 1] {
      var i :| 0 <= i < |seen| - 1 && seen[i] == m;
      assert m < last && l.messages[last] == Open;
    }
    if l.messages[m] == Open && !NothingNewer(l, m) {
      var k: nat :| m < k < |l.messages| && l.messages[k] == Open;
      assert m in seen && k in seen;
      var i, j :| 0 <= i < |seen| && seen[i] == m && 0 <= j < |seen| && seen[j] == k;
      assert seen[..|seen| - 1][i] == m;
    }
  }

  lemma MergeBecomes(l: Lane, e: Event, m: nat, s: Message)
    requires Enabled(l, e) && e.Merges? && m < |l.messages|
    ensures |Step(l, e).messages| == |l.messages| && MessageTold(l, e, m, s, Step(l, e).messages[m])
  {
    if Pending(l) != [] { MergedAllButLast(l, m); }
  }

  lemma OthersBecome(l: Lane, e: Event, m: nat, s: Message)
    requires Enabled(l, e) && !e.Finishes? && !e.Merges? && m < |l.messages|
    ensures m < |Step(l, e).messages| && MessageTold(l, e, m, s, Step(l, e).messages[m])
  {}

  /** Every step leaves a message settled as its event tells, and settles no
      other. */
  lemma MessageBecomesExactly(l: Lane, e: Event, m: nat, s: Message)
    requires Enabled(l, e) && m < |l.messages|
    ensures m < |Step(l, e).messages|
    ensures Becomes(l, e, m, s) ==> Step(l, e).messages[m] == s
    ensures Step(l, e).messages[m] != l.messages[m] ==> Becomes(l, e, m, Step(l, e).messages[m])
  {
    match e
    case Finishes(_, _, _) => FinishBecomes(l, e, m, s);
    case Merges(_, _) => MergeBecomes(l, e, m, s);
    case _ => OthersBecome(l, e, m, s);
  }

  predicate RepliedBy(l: Lane, e: Event, m: nat) {
    m < |l.messages| && Becomes(l, e, m, Replied)
  }

  /** A reply row is written exactly for the message that becomes replied. */
  lemma RepliesExactly(l: Lane, e: Event, m: nat)
    requires Enabled(l, e)
    ensures RepliedBy(l, e, m) ==> Step(l, e).replies == l.replies + [m]
    ensures (forall k :: !RepliedBy(l, e, k)) ==> Step(l, e).replies == l.replies
  {
    if e.Merges? {
      assert Step(l, e).replies == l.replies;
    } else if Step(l, e).replies != l.replies {
      RepliesOnce(l, e);
    }
  }

  lemma RepliesOnce(l: Lane, e: Event)
    requires Enabled(l, e) && Step(l, e).replies != l.replies
    ensures exists k :: RepliedBy(l, e, k)
  {
    match e
    case Finishes(h, _, _) =>
      var m := l.handlers[h].phase.target;
      if m < |l.messages| { AroundExactly(l, m); }
      assert RepliedBy(l, e, m);
    case Closes(h, _) => assert RepliedBy(l, e, l.handlers[h].phase.target);
    case Releases(h, _, _) => assert RepliedBy(l, e, l.jobs[l.handlers[h].job].message);
    case SweepSettles(h, _, _) => assert RepliedBy(l, e, l.jobs[l.handlers[h].job].message);
    case _ => assert false;
  }

  // ------------------------------------------------------------ what jobs become

  /** The handler's word is taken: it has the job, which counts as running. */
  predicate Holds(l: Lane, h: nat, q: nat) {
    h < |l.handlers| && l.handlers[h].job == q && q < |l.jobs| && l.jobs[q].state == Active
  }

  /** The state a step gives a job. */
  predicate JobBecomes(l: Lane, e: Event, q: nat, s: JobState)
    requires q < |l.jobs|
  {
    match s
    case Active => e == Starts(q)
    case Retrying => (e.Throws? && Holds(l, e.handler, q)) || e == Expires(q, true) || e == AdminRetries(q)
    case Failed => e == Expires(q, false)
    case Gone => (e.Completes? && Holds(l, e.handler, q)) || (e.DeletesFailed? && l.jobs[q].state == Failed)
    case Created => false
  }

  /** Every step leaves a job in the state its event tells or as it was, with its
      message; only an arrival and a recovery add one, at the end. */
  lemma JobBecomesExactly(l: Lane, e: Event, q: nat, s: JobState)
    requires Enabled(l, e) && q < |l.jobs|
    ensures q < |Step(l, e).jobs| && Step(l, e).jobs[q].message == l.jobs[q].message
    ensures JobBecomes(l, e, q, s) ==> Step(l, e).jobs[q].state == s
    ensures Step(l, e).jobs[q].state != l.jobs[q].state ==> JobBecomes(l, e, q, Step(l, e).jobs[q].state)
  {}

  lemma AddsJobExactly(l: Lane, e: Event)
    requires Enabled(l, e)
    ensures var c := Step(l, e);
            if e.Arrives? then c.messages == l.messages + [Open] && c.jobs == l.jobs + [Job(|l.messages|, Created)]
            else if e.Requeues? then c == l.(jobs := l.jobs + [Job(e.message, Created)])
            else |c.jobs| == |l.jobs| && |c.messages| == |l.messages|
  {}

  // ------------------------------------------------------------------- progress

  /** The first job waits to run. */
  predicate Ready(l: Lane, q: nat) {
    Head(l, q) && l.jobs[q].state in {Created, Retrying}
  }

  /** The job is started and reads what is open. */
  lemma StartsAndLooks(l: Lane, q: nat) returns (ls: seq<Lane>, es: seq<Event>)
    requires Ready(l, q) && Pending(l) != []
    ensures Run(ls, es) && ls[0] == l && |es| == 2
    ensures ls[2] == l.(jobs := l.jobs[q := Job(l.jobs[q].message, Active)],
                        handlers := l.handlers + [Handler(q, Looked(Pending(l)))])
  {
    var h := |l.handlers|;
    var l1 := Step(l, Starts(q));
    var l2 := Step(l1, Looks(h));
    assert Pending(l1) == Pending(l);
    ls, es := [l, l1, l2], [Starts(q), Looks(h)];
  }

  /** It answers the message it is aimed at and completes. */
  lemma AnswersAndCompletes(l: Lane, h: nat, m: nat) returns (ls: seq<Lane>, es: seq<Event>)
    requires At(l, h, m) && m < |l.messages| && l.messages[m] == Open && NothingOlder(l, m)
    requires Holds(l, h, l.handlers[h].job)
    ensures Run(ls, es) && ls[0] == l && |es| == 2
    ensures ls[2].messages == l.messages[m := Replied] && ls[2].replies == l.replies + [m]
    ensures ls[2].jobs == l.jobs[l.handlers[h].job := Job(l.jobs[l.handlers[h].job].message, Gone)]
  {
    var l1 := Step(l, Finishes(h, false, true));
    var l2 := Step(l1, Completes(h));
    ls, es := [l, l1, l2], [Finishes(h, false, true), Completes(h)];
  }

  /** An open message is among the pending ones. */
  lemma PlaceOf(l: Lane, k: nat) returns (i: nat)
    requires k < |l.messages| && l.messages[k] == Open
    ensures i < |Pending(l)| && Pending(l)[i] == k
  {
    assert k in Pending(l);
    i :| 0 <= i < |Pending(l)| && Pending(l)[i] == k;
  }

  lemma OldestIsFirst(l: Lane)
    requires Pending(l) != []
    ensures Pending(l)[0] < |l.messages| && l.messages[Pending(l)[0]] == Open && NothingOlder(l, Pending(l)[0])
  {
    assert Pending(l)[0] in Pending(l);
    forall k: nat | k < |l.messages| && l.messages[k] == Open ensures Pending(l)[0] <= k { var i := PlaceOf(l, k); }
  }

  lemma Append(ls: seq<Lane>, es: seq<Event>, ks: seq<Lane>, fs: seq<Event>) returns (ms: seq<Lane>, gs: seq<Event>)
    requires Run(ls, es) && Run(ks, fs) && ls[|es|] == ks[0]
    ensures Run(ms, gs) && ms[0] == ls[0] && gs == es + fs && ms[|gs|] == ks[|fs|]
  {
    ms, gs := ls + ks[1..], es + fs;
    assert forall i :: |es| <= i < |ms| ==> ms[i] == ks[i - |es|];
  }

  lemma Merged(l: Lane, h: nat, plain: bool) returns (ls: seq<Lane>, es: seq<Event>)
    requires h < |l.handlers| && l.handlers[h].phase == Looked(Pending(l)) && Pending(l) != []
    ensures Run(ls, es) && ls[0] == l && es == [Merges(h, plain)]
    ensures ls[1] == Merge(l, h, Pending(l), plain)
  {
    ls, es := [l, Step(l, Merges(h, plain))], [Merges(h, plain)];
  }

  /** The first job answers the oldest open message, whatever message it was made
      for, and makes room for the next job. */
  lemma OldestGetsItsReply(l: Lane, q: nat) returns (ls: seq<Lane>, es: seq<Event>)
    requires Ready(l, q) && Pending(l) != []
    ensures Run(ls, es) && ls[0] == l
    ensures var m, c := Pending(l)[0], ls[|es|];
            && m < |l.messages| && q < |l.jobs|
            && c.messages == l.messages[m := Replied] && c.replies == l.replies + [m]
            && c.jobs == l.jobs[q := Job(l.jobs[q].message, Gone)]
  {
    var h, m := |l.handlers|, Pending(l)[0];
    OldestIsFirst(l);
    ls, es := StartsAndLooks(l, q);
    var l2 := ls[2];
    assert Pending(l2) == Pending(l);
    var ks, fs := Merged(l2, h, false);
    ls, es := Append(ls, es, ks, fs);
    ks, fs := AnswersAndCompletes(ls[|es|], h, m);
    ls, es := Append(ls, es, ks, fs);
  }

  /** The last of the open messages, and the messages after a merge. */
  function Last(l: Lane): nat
    requires Pending(l) != []
  {
    Pending(l)[|Pending(l)| - 1]
  }

  predicate BurstAnswered(l: Lane, c: Lane, m: nat) {
    && m < |l.messages| == |c.messages| && l.messages[m] == Open
    && forall k :: 0 <= k < |l.messages| ==>
         c.messages[k] == if k == m then Replied else if l.messages[k] == Open then Coalesced else l.messages[k]
  }

  lemma AfterMerge(l: Lane, h: nat)
    requires h < |l.handlers| && l.handlers[h].phase == Looked(Pending(l)) && |Pending(l)| > 1
    ensures var c, m := Merge(l, h, Pending(l), true), Last(l);
            && At(c, h, m) && m < |c.messages| == |l.messages| && c.messages[m] == Open && l.messages[m] == Open
            && NothingOlder(c, m) && c.jobs == l.jobs && c.replies == l.replies
            && c.handlers[h].job == l.handlers[h].job
            && forall k :: 0 <= k < |l.messages| && k != m ==>
                 c.messages[k] == if l.messages[k] == Open then Coalesced else l.messages[k]
  {
    var m := Last(l);
    assert m in Pending(l);
    forall k: nat | k < |l.messages| && k != m && l.messages[k] == Open ensures !NothingNewer(l, k) {
      assert k in Pending(l);
      var i :| 0 <= i < |Pending(l)| && Pending(l)[i] == k;
      assert k < m;
    }
    forall k: nat | k < |l.messages|
      ensures k in Pending(l)[..|Pending(l)| - 1] <==> l.messages[k] == Open && !NothingNewer(l, k)
    {
      MergedAllButLast(l, k);
    }
    assert NothingNewer(l, m) by { NewestIsLast(l); }
  }

  lemma NewestIsLast(l: Lane)
    requires Pending(l) != []
    ensures Last(l) < |l.messages| && NothingNewer(l, Last(l))
  {
    assert Last(l) in Pending(l);
    forall k: nat | k < |l.messages| && l.messages[k] == Open ensures k <= Last(l) { var i := PlaceOf(l, k); }
  }

  /** A burst of plain texts is merged into its last one and answered once. */
  lemma BurstIsAnsweredOnce(l: Lane, q: nat) returns (ls: seq<Lane>, es: seq<Event>)
    requires Ready(l, q) && |Pending(l)| > 1
    ensures Run(ls, es) && ls[0] == l
    ensures BurstAnswered(l, ls[|es|], Last(l)) && ls[|es|].replies == l.replies + [Last(l)]
  {
    var h, m := |l.handlers|, Last(l);
    ls, es := StartsAndLooks(l, q);
    var l2 := ls[2];
    assert Pending(l2) == Pending(l);
    AfterMerge(l2, h);
    var ks, fs := Merged(l2, h, true);
    ls, es := Append(ls, es, ks, fs);
    ks, fs := AnswersAndCompletes(ls[|es|], h, m);
    ls, es := Append(ls, es, ks, fs);
  }

  // ------------------------------------------------------------ what handlers see

  /** Reading shows every open message in order of arrival; nothing to answer ends
      the handler. */
  lemma LooksExactly(l: Lane, h: nat)
    requires Enabled(l, Looks(h))
    ensures var p := Step(l, Looks(h)).handlers[h].phase;
            if exists m: nat :: m < |l.messages| && l.messages[m] == Open
            then p == Looked(Pending(l)) && p.seen != [] else p == Returned
  {
    if m: nat :| m < |l.messages| && l.messages[m] == Open { assert m in Pending(l); }
    if Pending(l) != [] { assert Pending(l)[0] in Pending(l); }
  }

  /** A merged burst is answered at its last message, anything else at the first
      that was read. */
  lemma AimsExactly(l: Lane, e: Event)
    requires Enabled(l, e) && e.Merges?
    ensures var seen := l.handlers[e.handler].phase.seen;
            At(Step(l, e), e.handler, if MergesBurst(l, e) then seen[|seen| - 1] else seen[0])
  {}

  /** The phase a step gives a handler that was there, apart from looking and
      aiming. */
  lemma HandlersExactly(l: Lane, e: Event, h: nat)
    requires Enabled(l, e) && h < |l.handlers|
    ensures h < |Step(l, e).handlers| && Step(l, e).handlers[h].job == l.handlers[h].job
    ensures var p, q := l.handlers[h].phase, Step(l, e).handlers[h].phase;
            && ((e.Closes? || e.Releases?) && e.handler == h ==> q == Returned)
            && ((e.Throws? || e.Completes? || e.Dies? || e.SweepSettles?) && e.handler == h ==> q == Dead)
            && (q != p ==>
                  (e.Looks? || e.Merges? || e.Finishes? || e.Closes? || e.Releases? || e.Throws? || e.Completes?
                   || e.Dies? || e.SweepSettles?) && e.handler == h)
  {}

  /** A start and the heartbeat's reading of a failed job add a handler. */
  lemma AddsHandlersExactly(l: Lane, e: Event)
    requires Enabled(l, e)
    ensures var hs := Step(l, e).handlers;
            if e.Starts? then hs == l.handlers + [Handler(e.job, Begun)]
            else if e.Sweeps? then hs == l.handlers + [Handler(e.job, Sweeping)]
            else |hs| == |l.handlers|
  {}

  /** A turn that finds an older message open leaves everything as it was; any
      other finish ends the handler. */
  lemma FinishesExactly(l: Lane, e: Event)
    requires Enabled(l, e) && e.Finishes?
    ensures var m := l.handlers[e.handler].phase.target;
            if m < |l.messages| && l.messages[m] == Open && !NothingOlder(l, m) then Step(l, e) == l
            else Step(l, e).handlers[e.handler].phase == Returned
  {
    var m := l.handlers[e.handler].phase.target;
    if m < |l.messages| { AroundExactly(l, m); }
  }
}
