/** When the settled messages stay a prefix of the arrivals: exactly as long as
    no step lets go of a message's last hope. */
module ConversationOrder {
  import opened Conversation
  import opened ConversationTheorems

  /** A run from l in which no step strands anything. */
  ghost predicate QuietRun(l: Lane, ls: seq<Lane>, es: seq<Event>) {
    Run(ls, es) && ls[0] == l && forall i :: 0 <= i < |es| ==> !Strands(ls[i], es[i])
  }

  /** However it goes on from l, while nothing more is stranded, the settled
      messages are a prefix of the arrivals. */
  ghost predicate PrefixForever(l: Lane) {
    forall ls: seq<Lane>, es: seq<Event> :: QuietRun(l, ls, es) ==> SettledIsPrefix(ls[|es|])
  }

  lemma {:induction false} QuietRunKeeps(l: Lane, ls: seq<Lane>, es: seq<Event>, n: nat)
    requires LaneInv(l) && QuietRun(l, ls, es) && n <= |es|
    ensures LaneInv(ls[n])
  {
    if n == 0 {
    } else {
      QuietRunKeeps(l, ls, es, n - 1);
      StepKeeps(ls[n - 1], es[n - 1]);
    }
  }

  // ------------------------------------------------------------ after stranding

  /** Message m is open, everything older is settled, and the first live job of a
      newer message, job r, has no job of m before it. */
  ghost predicate Passed(l: Lane, m: nat, r: nat) {
    && OpenAt(l.messages, m) && !Older(l.messages, m)
    && (forall q :: 0 <= q < |l.jobs| ==> l.jobs[q].message < |l.messages|)
    && r < |l.jobs| && l.jobs[r].state != Gone && l.jobs[r].message > m && OpenAt(l.messages, l.jobs[r].message)
    && forall p :: 0 <= p < r && l.jobs[p].state != Gone ==> l.jobs[p].message < m
  }

  /** Steps that strand nothing, from one lane to another. */
  ghost predicate Leads(l: Lane, k: Lane, ls: seq<Lane>, es: seq<Event>) {
    QuietRun(l, ls, es) && ls[|es|] == k
  }

  lemma Join(l: Lane, k: Lane, ls: seq<Lane>, es: seq<Event>, ls1: seq<Lane>, es1: seq<Event>)
    returns (all: seq<Lane>, events: seq<Event>)
    requires Leads(l, k, ls, es) && QuietRun(k, ls1, es1)
    ensures Leads(l, ls1[|es1|], all, events)
  {
    all, events := ls + ls1[1..], es + es1;
    forall i | 0 <= i < |events|
      ensures Enabled(all[i], events[i]) && all[i + 1] == Step(all[i], events[i]) && !Strands(all[i], events[i])
    {
      if i >= |es| { assert all[i] == ls1[i - |es|] && all[i + 1] == ls1[i - |es| + 1]; }
    }
  }

  lemma One(l: Lane, e: Event) returns (ls: seq<Lane>, es: seq<Event>)
    requires Enabled(l, e) && !Strands(l, e)
    ensures Leads(l, Step(l, e), ls, es)
  {
    ls, es := [l, Step(l, e)], [e];
  }

  /** A head job can be started, after its failure or expiry has been undone. */
  lemma StartHead(l: Lane, q: nat) returns (ls: seq<Lane>, es: seq<Event>)
    requires Head(l, q)
    ensures Leads(l, SetJob(l, q, Active).(handlers := l.handlers + [Handler(q, Begun)]), ls, es)
  {
    var k := l;
    ls, es := [l], [];
    if l.jobs[q].state == Active {
      ls, es := One(l, Expires(q, true));
      k := SetJob(l, q, Retrying);
    } else if l.jobs[q].state == Failed {
      ls, es := One(l, AdminRetries(q));
      k := SetJob(l, q, Retrying);
    }
    var ls1, es1 := One(k, Starts(q));
    ls, es := Join(l, k, ls, es, ls1, es1);
  }

  /** A handler of the running head whose message is settled releases it and
      reports success. */
  lemma FinishHead(l: Lane, q: nat, h: nat) returns (ls: seq<Lane>, es: seq<Event>)
    requires q < |l.jobs| && l.jobs[q].state == Active && !OpenAt(l.messages, l.jobs[q].message)
    requires h < |l.handlers| && l.handlers[h] == Handler(q, Begun)
    ensures Leads(l, SetPhase(SetJob(l, q, Gone), h, Dead), ls, es)
  {
    var k := SetPhase(l, h, Returned);
    ls, es := One(l, Releases(h, true, true));
    var ls1, es1 := One(k, Completes(h));
    ls, es := Join(l, k, ls, es, ls1, es1);
    assert SetPhase(k, h, Dead).handlers == SetPhase(l, h, Dead).handlers;
  }

  /** The head job of a settled message can be drained. */
  lemma DrainHead(l: Lane, q: nat) returns (k: Lane, ls: seq<Lane>, es: seq<Event>)
    requires Head(l, q) && !OpenAt(l.messages, l.jobs[q].message)
    ensures Leads(l, k, ls, es) && k.messages == l.messages && k.jobs == SetJob(l, q, Gone).jobs
  {
    var h := |l.handlers|;
    var started := SetJob(l, q, Active).(handlers := l.handlers + [Handler(q, Begun)]);
    ls, es := StartHead(l, q);
    var ls1, es1 := FinishHead(started, q, h);
    ls, es := Join(l, started, ls, es, ls1, es1);
    k := SetPhase(SetJob(started, q, Gone), h, Dead);
    assert k.jobs == SetJob(l, q, Gone).jobs;
  }

  /** When job r is the head, a written release settles its message before m. */
  lemma SettleNewer(l: Lane, m: nat, r: nat) returns (ls: seq<Lane>, es: seq<Event>)
    requires Passed(l, m, r) && Head(l, r)
    ensures QuietRun(l, ls, es) && !SettledIsPrefix(ls[|es|])
  {
    var h := |l.handlers|;
    var started := SetJob(l, r, Active).(handlers := l.handlers + [Handler(r, Begun)]);
    ls, es := StartHead(l, r);
    var last := Step(started, Releases(h, true, true));
    var ls1, es1 := One(started, Releases(h, true, true));
    ls, es := Join(l, started, ls, es, ls1, es1);
    assert last.messages[m] == Open && last.messages[l.jobs[r].message] == Replied;
  }

  /** Draining the settled jobs ahead brings job r to the head. */
  lemma {:induction false} PassOver(l: Lane, m: nat, r: nat, n: nat) returns (ls: seq<Lane>, es: seq<Event>)
    requires Passed(l, m, r) && n <= r && forall p :: 0 <= p < n ==> l.jobs[p].state == Gone
    ensures QuietRun(l, ls, es) && !SettledIsPrefix(ls[|es|])
    decreases r - n
  {
    if n == r {
      ls, es := SettleNewer(l, m, r);
    } else if l.jobs[n].state == Gone {
      ls, es := PassOver(l, m, r, n + 1);
    } else {
      assert !OpenAt(l.messages, l.jobs[n].message);
      var k, ls0, es0 := DrainHead(l, n);
      var ls1, es1 := PassOver(k, m, r, n + 1);
      ls, es := Join(l, k, ls0, es0, ls1, es1);
    }
  }

  // ------------------------------------------------------------ from a last hope

  /** The first live job of a newer message. */
  lemma {:induction false} FirstNewer(jobs: seq<Job>, m: nat, n: nat) returns (r: nat)
    requires n < |jobs| && jobs[n].state != Gone && jobs[n].message > m
    ensures r <= n && jobs[r].state != Gone && jobs[r].message > m
    ensures forall p :: 0 <= p < r && jobs[p].state != Gone ==> jobs[p].message <= m
    decreases n
  {
    if p :| 0 <= p < n && jobs[p].state != Gone && jobs[p].message > m {
      r := FirstNewer(jobs, m, p);
    } else {
      r := n;
    }
  }

  /** Once the last hope of the oldest open message is gone and one more message
      has arrived, a newer message's job comes first. */
  lemma LostHopeIsPassed(l: Lane, q: nat) returns (r: nat)
    requires LaneInv(l) && q < |l.jobs| && l.jobs[q].state != Gone && LastHope(l, q)
    requires !Older(l.messages, l.jobs[q].message)
    ensures Passed(Arrive(SetJob(l, q, Gone)), l.jobs[q].message, r)
  {
    var m, k := l.jobs[q].message, Arrive(SetJob(l, q, Gone));
    assert k.jobs[|l.jobs|] == Job(|l.messages|, Created);
    r := FirstNewer(k.jobs, m, |l.jobs|);
    assert forall x :: 0 <= x < |l.jobs| && x != q ==> l.jobs[x] == k.jobs[x];
    forall p | 0 <= p < r && k.jobs[p].state != Gone ensures k.jobs[p].message < m {
      assert p < |l.jobs| && p != q;
      if k.jobs[p].message == m { NewerAhead(l.jobs, q, p); }
    }
    NewerIsOpen(l, m);
    assert forall x :: 0 <= x < |l.messages| ==> (OpenAt(k.messages, x) <==> OpenAt(l.messages, x));
    assert OpenAt(k.messages, k.jobs[r].message);
  }

  /** A job that does not cover has a newer message's job ahead of it. */
  lemma NewerAhead(jobs: seq<Job>, q: nat, p: nat)
    requires q < |jobs| && p < |jobs| && p != q && !Covered(jobs, q)
    requires jobs[p].state != Gone && jobs[p].message == jobs[q].message
    ensures exists x :: 0 <= x < p && x != q && jobs[x].state != Gone && jobs[x].message > jobs[q].message
  {
    assert !Covers(jobs, q, p);
  }

  lemma NewerIsOpen(l: Lane, m: nat)
    requires SettledIsPrefix(l) && OpenAt(l.messages, m)
    ensures forall x :: m <= x < |l.messages| ==> OpenAt(l.messages, x)
  {}

  /** Each step that strands ends the job of the oldest open message. */
  lemma StrandsOneJob(l: Lane, e: Event) returns (q: nat)
    requires LaneInv(l) && Enabled(l, e) && Strands(l, e)
    ensures q < |l.jobs| && l.jobs[q].state != Gone && LastHope(l, q) && !Older(l.messages, l.jobs[q].message)
    ensures Step(l, e).messages == l.messages && Step(l, e).jobs == SetJob(l, q, Gone).jobs
  {
    if e.Completes? {
      q := l.handlers[e.handler].job;
    } else {
      DeletionIsOneJob(l);
      q :| 0 <= q < |l.jobs| && l.jobs[q].state == Failed && LastHope(l, q);
      assert l.(jobs := WithoutFailed(l.jobs)) == SetJob(l, q, Gone);
    }
    HeadIsOldest(l, q);
  }

  lemma StrandingBreaksOrder(l: Lane, e: Event) returns (ls: seq<Lane>, es: seq<Event>)
    requires LaneInv(l) && Enabled(l, e) && Strands(l, e)
    ensures QuietRun(Step(l, e), ls, es) && !SettledIsPrefix(ls[|es|])
  {
    var q := StrandsOneJob(l, e);
    var k := Step(l, e);
    var r := LostHopeIsPassed(l, q);
    assert Arrive(k).jobs == Arrive(SetJob(l, q, Gone)).jobs;
    assert Passed(Arrive(k), l.jobs[q].message, r);
    var ls0, es0 := One(k, Arrives);
    var ls1, es1 := PassOver(Arrive(k), l.jobs[q].message, r, 0);
    ls, es := Join(k, Arrive(k), ls0, es0, ls1, es1);
  }

  /** The condition is exact: the settled messages stay a prefix of the arrivals,
      in every continuation that strands nothing more, if and only if the step
      did not let go of a message's last hope. */
  lemma PrefixExactlyWhenNotLetGo(l: Lane, e: Event)
    requires LaneInv(l) && Enabled(l, e)
    ensures PrefixForever(Step(l, e)) <==> !Strands(l, e)
  {
    if Strands(l, e) {
      var ls, es := StrandingBreaksOrder(l, e);
    } else {
      StepKeeps(l, e);
      forall ls: seq<Lane>, es: seq<Event> | QuietRun(Step(l, e), ls, es) ensures SettledIsPrefix(ls[|es|]) {
        QuietRunKeeps(Step(l, e), ls, es, |es|);
      }
    }
  }
}
