/** A conversation lane as the program runs it: the queries of processNext and
    finish as loops over the rows, and the updates in place. Each method is
    proved to be the step that module Conversation describes. */
module ConversationService {
  import opened Conversation
  import opened ConversationTheorems

  class Conversations {
    var messages: seq<Message>
    var jobs: seq<Job>
    var handlers: seq<Handler>
    var replies: seq<nat>

    function Value(): Lane
      reads this
    {
      Lane(messages, jobs, handlers, replies)
    }

    constructor ()
      ensures Value() == EMPTY && LaneInv(Value())
    {
      messages, jobs, handlers, replies := [], [], [], [];
    }

    /** ingest: the identified message and its job, in one transaction. */
    method Identify() returns (m: nat)
      modifies this`messages, this`jobs
      ensures Value() == Arrive(old(Value())) && m == |old(messages)|
    {
      m := |messages|;
      messages := messages + [Open];
      jobs := jobs + [Job(m, Created)];
    }

    /** The pending query: all open messages, oldest first. */
    method ReadPending() returns (ms: seq<nat>)
      ensures ms == Pending(Value())
    {
      ms := [];
      for i := 0 to |messages|
        invariant ms == OpenUpTo(messages, i)
      {
        if messages[i] == Open { ms := ms + [i]; }
      }
    }

    method LookAround(h: nat)
      requires h < |handlers|
      modifies this`handlers
      ensures Value() == Look(old(Value()), h)
    {
      var ms := ReadPending();
      handlers := handlers[h := handlers[h].(phase := if ms == [] then Returned else Looked(ms))];
    }

    /** The coalescing transaction: the same rows must still be pending, then
        all but the last are marked. */
    method Coalesce(h: nat, seen: seq<nat>, plain: bool)
      requires h < |handlers| && seen != []
      modifies this`messages, this`handlers
      ensures Value() == Merge(old(Value()), h, seen, plain)
    {
      var next := seen[0];
      if plain && |seen| > 1 {
        var current := ReadPending();
        var same := SameRows(current, seen);
        if same {
          MarkCoalesced(seen[..|seen| - 1]);
          next := seen[|seen| - 1];
        }
      }
      handlers := handlers[h := handlers[h].(phase := Aimed(next))];
    }

    method SameRows(a: seq<nat>, b: seq<nat>) returns (same: bool)
      ensures same <==> a == b
    {
      if |a| != |b| { return false; }
      for i := 0 to |a|
        invariant forall j :: 0 <= j < i ==> a[j] == b[j]
      {
        if a[i] != b[i] { return false; }
      }
      same := true;
    }

    method MarkCoalesced(ms: seq<nat>)
      requires forall i :: 0 <= i < |ms| ==> ms[i] < |messages|
      modifies this`messages
      ensures messages == SettleAll(old(messages), ms, Coalesced)
    {
      assert ms[..0] == [];
      for i := 0 to |ms|
        invariant |messages| == |old(messages)|
        invariant messages == SettleAll(old(messages), ms[..i], Coalesced)
      {
        assert ms[..i + 1] == ms[..i] + [ms[i]];
        messages := messages[ms[i] := Coalesced];
      }
      assert ms[..|ms|] == ms;
    }

    method HasOlder(m: nat) returns (older: bool)
      requires m < |messages|
      ensures older <==> Older(messages, m)
    {
      for k := 0 to m
        invariant forall i :: 0 <= i < k ==> messages[i] != Open
      {
        if messages[k] == Open {
          assert OpenAt(messages, k);
          return true;
        }
      }
      older := false;
    }

    method HasNewer(m: nat) returns (newer: bool)
      requires m < |messages|
      ensures newer <==> Newer(messages, m)
    {
      for k := m + 1 to |messages|
        invariant forall i :: m < i < k ==> messages[i] != Open
      {
        if messages[k] == Open {
          assert OpenAt(messages, k);
          return true;
        }
      }
      newer := false;
    }

    /** Only an open message is settled; a reply writes its row with it. */
    method SettleMessage(m: nat, outcome: Message)
      modifies this`messages, this`replies
      ensures Value() == Settle(old(Value()), m, outcome)
    {
      if m >= |messages| || messages[m] != Open { return; }
      messages := messages[m := outcome];
      if outcome == Replied { replies := replies + [m]; }
    }

    /** finish, from its guard to its last update; retry is the
        earlier_message_pending error. */
    method FinishMessage(h: nat, m: nat, checkNewer: bool, replying: bool) returns (retry: bool)
      requires h < |handlers|
      modifies this`messages, this`replies, this`handlers
      ensures Value() == FinishTurn(old(Value()), h, m, checkNewer, replying)
      ensures retry <==> FinishOutcome(old(Value()), m, checkNewer, replying).EarlierPending?
    {
      retry := false;
      if m < |messages| && messages[m] == Open {
        retry := HasOlder(m);
        if retry { return; }
        var superseded := false;
        if checkNewer { superseded := HasNewer(m); }
        SettleMessage(m, if superseded then Superseded else if replying then Replied else Silent);
      }
      handlers := handlers[h := handlers[h].(phase := Returned)];
    }

    /** releaseFailedTurn: settle the job's message, when anything can be
        written at all. */
    method ReleaseFailedTurn(q: nat, replying: bool, written: bool)
      requires q < |jobs|
      modifies this`messages, this`replies
      ensures Value() == Release(old(Value()), q, replying, written)
    {
      if written { SettleMessage(jobs[q].message, if replying then Replied else Silent); }
    }

    /** releaseSingleton for failed jobs, as the heartbeat and the admin's
        release-queue call it. It strands a message exactly when a failed job is
        that open message's last hope. */
    method DeleteFailedJobs()
      modifies this`jobs
      ensures Value() == Step(old(Value()), DeletesFailed)
      ensures old(LaneInv(Value())) ==> (NoneStranded(Value()) <==> !old(Strands(Value(), DeletesFailed)))
    {
      ghost var before := Value();
      for q := 0 to |jobs|
        invariant |jobs| == |before.jobs|
        invariant forall p :: 0 <= p < q ==> jobs[p] == WithoutFailed(before.jobs)[p]
        invariant forall p :: q <= p < |jobs| ==> jobs[p] == before.jobs[p]
      {
        if jobs[q].state == Failed { jobs := jobs[q := jobs[q].(state := Gone)]; }
      }
      assert jobs == WithoutFailed(before.jobs);
      if LaneInv(before) { StrandedExactlyWhenLetGo(before, DeletesFailed); }
    }

    /** The heartbeat's treatment of the failed job at the head of the lane, when
        nothing comes between its transactions. */
    method UnblockFailed(q: nat, replying: bool, written: bool)
      requires q < |jobs| && jobs[q].state == Failed
      modifies this`messages, this`replies, this`jobs
      ensures Value() == Step(Release(old(Value()), q, replying, written), DeletesFailed)
      ensures old(LaneInv(Value())) && written ==> LaneInv(Value())
    {
      ghost var before := Value();
      ReleaseFailedTurn(q, replying, written);
      ghost var settled := Value();
      DeleteFailedJobs();
      if LaneInv(before) && written {
        HeadIsOldest(before, q);
        ReleaseKeeps(before, q, replying, written);
        DeletionIsOneJob(settled);
        EndJobKeeps(settled, q, Gone);
      }
    }

    /** Startup recovery: the oldest open messages are read, as many as this phone
        has among the 500 oldest of all phones, and each gets a fresh job later,
        in a transaction of its own. */
    method ReadForRecovery(share: nat) returns (ms: seq<nat>)
      ensures ms <= Pending(Value())
      ensures |ms| == if share < |Pending(Value())| then share else |Pending(Value())|
    {
      ms := ReadPending();
      if |ms| > share { ms := ms[..share]; }
    }

    method Requeue(m: nat)
      requires m < |messages|
      modifies this`jobs
      ensures Value() == Step(old(Value()), Requeues(m))
      ensures old(LaneInv(Value())) ==> LaneInv(Value())
    {
      if LaneInv(Value()) { RequeueKeeps(Value(), m); }
      jobs := jobs + [Job(m, Created)];
    }

    /** The recovery loop, when nothing comes between its transactions. */
    method RequeueAll(ms: seq<nat>)
      requires forall i :: 0 <= i < |ms| ==> ms[i] < |messages|
      modifies this`jobs
      ensures jobs == old(jobs) + JobsFor(ms)
      ensures old(LaneInv(Value())) ==> LaneInv(Value())
    {
      assert ms[..0] == [] && JobsFor([]) == [];
      for i := 0 to |ms|
        invariant jobs == old(jobs) + JobsFor(ms[..i])
        invariant old(LaneInv(Value())) ==> LaneInv(Value())
      {
        assert JobsFor(ms[..i + 1]) == JobsFor(ms[..i]) + [Job(ms[i], Created)];
        Requeue(ms[i]);
      }
      assert ms[..|ms|] == ms;
    }
  }

  function JobsFor(ms: seq<nat>): (js: seq<Job>)
    ensures |js| == |ms| && forall i :: 0 <= i < |ms| ==> js[i] == Job(ms[i], Created)
  {
    seq(|ms|, i requires 0 <= i < |ms| => Job(ms[i], Created))
  }
}
