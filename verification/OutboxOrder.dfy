/** When the channel calls of a phone stay in the order of the outbox: exactly as
    long as no resolution harms a running handler. */
module OutboxOrder {
  import opened Types
  import opened Outbox
  import opened OutboxTheorems

  /** The calls so far follow the outbox, phone by phone. */
  predicate CallsOrdered(b: Box) {
    forall x, y :: 0 <= x < y < |b.calls| && b.calls[x].row < |b.rows| && b.calls[y].row < |b.rows|
                   && b.rows[b.calls[x].row].phone == b.rows[b.calls[y].row].phone ==>
      b.calls[x].row <= b.calls[y].row
  }

  /** A run from b in which no resolution harms a running handler. */
  ghost predicate QuietFrom(b: Box, bs: seq<Box>, es: seq<Event>) {
    Run(bs, es) && bs[0] == b && forall i :: 0 <= i < |es| ==> Quiet(bs[i], es[i])
  }

  ghost predicate OrderForever(b: Box) {
    forall bs: seq<Box>, es: seq<Event> :: QuietFrom(b, bs, es) ==> CallsOrdered(bs[|es|])
  }

  lemma {:induction false} QuietFromKeeps(b: Box, bs: seq<Box>, es: seq<Event>, n: nat)
    requires Lanes(b) && QuietFrom(b, bs, es) && n <= |es|
    ensures Lanes(bs[n])
  {
    if n == 0 {
    } else {
      QuietFromKeeps(b, bs, es, n - 1);
      StepLanes(bs[n - 1], es[n - 1]);
    }
  }

  ghost predicate Leads(b: Box, c: Box, bs: seq<Box>, es: seq<Event>) {
    QuietFrom(b, bs, es) && bs[|es|] == c
  }

  lemma Join(b: Box, c: Box, bs: seq<Box>, es: seq<Event>, bs1: seq<Box>, es1: seq<Event>)
    returns (all: seq<Box>, events: seq<Event>)
    requires Leads(b, c, bs, es) && QuietFrom(c, bs1, es1)
    ensures Leads(b, bs1[|es1|], all, events)
  {
    all, events := bs + bs1[1..], es + es1;
    forall i | 0 <= i < |events|
      ensures Enabled(all[i], events[i]) && all[i + 1] == Step(all[i], events[i]) && Quiet(all[i], events[i])
    {
      if i >= |es| { assert all[i] == bs1[i - |es|] && all[i + 1] == bs1[i - |es| + 1]; }
    }
  }

  lemma One(b: Box, e: Event) returns (bs: seq<Box>, es: seq<Event>)
    requires Enabled(b, e) && Quiet(b, e)
    ensures Leads(b, Step(b, e), bs, es)
  {
    bs, es := [b, Step(b, e)], [e];
  }

  // --------------------------------------------------------- a row left behind

  predicate Alone(b: Box, i: nat, k: nat) {
    forall l :: 0 <= l < |b.attempts| && l != k && b.attempts[l].row == i ==> !Running(b.attempts[l])
  }

  /** The row is live, formatted and first in its lane. */
  predicate Sendable(b: Box, i: nat) {
    && i < |b.rows| && b.rows[i].mode == Live && b.rows[i].format != AwaitingFormat && !b.rows[i].alert
    && !Blocked(b.rows, i)
  }

  /** An open row no handler runs on, which an admin may cancel. */
  predicate Idle(b: Box, m: nat) {
    && m < |b.rows| && (Ended(b.rows[m].state) || Resolvable(b.rows[m].state))
    && forall l :: 0 <= l < |b.attempts| && b.attempts[l].row == m ==> !Running(b.attempts[l])
  }

  predicate LaterIdle(b: Box, i: nat) {
    i < |b.rows| ==> forall m :: i < m < |b.rows| && b.rows[m].phone == b.rows[i].phone ==> Idle(b, m)
  }

  /** Row i has ended, yet its one handler k will call or put it back. */
  predicate LeftBehind(b: Box, i: nat, k: nat) {
    && Sendable(b, i) && Ended(b.rows[i].state) && LaterIdle(b, i)
    && k < |b.attempts| && b.attempts[k].row == i && Running(b.attempts[k]) && b.attempts[k].phase != Answered(Accepted)
    && Alone(b, i, k)
  }

  /** The same, with row n of its phone right after, called already or not. */
  predicate LeftBehindBy(b: Box, i: nat, k: nat, n: nat) {
    && Sendable(b, i) && Ended(b.rows[i].state)
    && k < |b.attempts| && b.attempts[k].row == i && Running(b.attempts[k]) && b.attempts[k].phase != Answered(Accepted)
    && Alone(b, i, k)
    && i < n < |b.rows| && b.rows[n].phone == b.rows[i].phone
  }

  /** The rows of the phone between i and n are cancelled one by one. */
  lemma {:induction false} CancelBetween(b: Box, i: nat, k: nat, n: nat, m: nat)
    returns (c: Box, bs: seq<Box>, es: seq<Event>)
    requires LeftBehindBy(b, i, k, n) && i < m <= n
    requires b.rows[n] == Row(b.rows[i].phone, Live, Pending, Ready, false, None)
    requires forall x :: m <= x < n && b.rows[x].phone == b.rows[i].phone ==> Idle(b, x)
    requires forall x :: i < x < m && b.rows[x].phone == b.rows[i].phone ==> Ended(b.rows[x].state)
    ensures Leads(b, c, bs, es) && LeftBehindBy(c, i, k, n) && c.rows[n] == b.rows[n] && c.attempts == b.attempts
    ensures !Blocked(c.rows, n)
    decreases n - m
  {
    if m == n {
      c, bs, es := b, [b], [];
    } else if b.rows[m].phone != b.rows[i].phone || Ended(b.rows[m].state) {
      c, bs, es := CancelBetween(b, i, k, n, m + 1);
    } else {
      assert Idle(b, m);
      var cancel := Resolves(m, true, CancelSend);
      var b1 := SetState(b, m, RowState.Cancelled);
      assert Step(b, cancel) == b1;
      CancelLeaves(b, i, k, n, m);
      var bs0, es0 := One(b, cancel);
      var bs1, es1;
      c, bs1, es1 := CancelBetween(b1, i, k, n, m + 1);
      bs, es := Join(b, b1, bs0, es0, bs1, es1);
    }
  }

  lemma CancelLeaves(b: Box, i: nat, k: nat, n: nat, m: nat)
    requires LeftBehindBy(b, i, k, n) && i < m < n
    ensures LeftBehindBy(SetState(b, m, RowState.Cancelled), i, k, n)
  {}

  /** A new row of the phone is sent: row i has ended, so nothing holds it back. */
  lemma SendNewer(b: Box, i: nat, k: nat) returns (c: Box, bs: seq<Box>, es: seq<Event>)
    requires LeftBehind(b, i, k)
    ensures Leads(b, c, bs, es) && LeftBehindBy(c, i, k, |b.rows|)
    ensures c.calls != [] && c.calls[|c.calls| - 1].row == |b.rows|
  {
    var n, a, phone := |b.rows|, |b.attempts|, b.rows[i].phone;
    var b1 := Appended(b, phone, Live, Ready, None);
    var bs0, es0 := One(b, Inserted(phone, Live, false));
    assert LeftBehindBy(b1, i, k, n);
    assert forall x :: i < x < n && b1.rows[x].phone == phone ==> Idle(b, x) && b1.rows[x] == b.rows[x];
    var b2, bs1, es1 := CancelBetween(b1, i, k, n, i + 1);
    bs, es := Join(b, b1, bs0, es0, bs1, es1);
    var b3 := SetState(b2, n, Sending).(attempts := b2.attempts + [Attempt(n, Claimed)]);
    assert Step(b2, Claims(n, true, true)) == b3;
    bs0, es0 := One(b2, Claims(n, true, true));
    bs, es := Join(b, b2, bs, es, bs0, es0);
    c := CallChannel(b3, a, Accepted);
    bs0, es0 := One(b3, Calls(a, Accepted));
    bs, es := Join(b, b3, bs, es, bs0, es0);
  }

  /** Calling row i now is out of order. */
  lemma CallTooLate(b: Box, i: nat, k: nat, n: nat) returns (bs: seq<Box>, es: seq<Event>)
    requires i < n < |b.rows| && b.rows[i].phone == b.rows[n].phone
    requires k < |b.attempts| && b.attempts[k] == Attempt(i, Claimed)
    requires b.calls != [] && b.calls[|b.calls| - 1].row == n
    ensures QuietFrom(b, bs, es) && !CallsOrdered(bs[|es|])
  {
    var c := CallChannel(b, k, Accepted);
    bs, es := One(b, Calls(k, Accepted));
    assert c.calls[|b.calls| - 1].row == n && c.calls[|b.calls|].row == i && c.rows == b.rows;
  }

  /** A row put back is claimed and called again. */
  lemma ClaimAgain(b: Box, i: nat, n: nat) returns (bs: seq<Box>, es: seq<Event>)
    requires Sendable(b, i) && b.rows[i].state == Pending && i < n < |b.rows| && b.rows[i].phone == b.rows[n].phone
    requires b.calls != [] && b.calls[|b.calls| - 1].row == n
    ensures QuietFrom(b, bs, es) && !CallsOrdered(bs[|es|])
  {
    var c := SetState(b, i, Sending).(attempts := b.attempts + [Attempt(i, Claimed)]);
    assert Step(b, Claims(i, true, true)) == c;
    var bs0, es0 := One(b, Claims(i, true, true));
    var bs1, es1 := CallTooLate(c, i, |b.attempts|, n);
    bs, es := Join(b, c, bs0, es0, bs1, es1);
  }

  /** The handler reports a refusal, or an unknown outcome that an admin then
      declares not delivered: either way the row is put back. */
  lemma PutBack(b: Box, i: nat, k: nat, n: nat) returns (c: Box, bs: seq<Box>, es: seq<Event>)
    requires LeftBehindBy(b, i, k, n) && b.attempts[k].phase.Answered?
    ensures Leads(b, c, bs, es) && Sendable(c, i) && c.rows[i].state == Pending
    ensures |c.rows| == |b.rows| && c.rows[n].phone == b.rows[n].phone && c.rows[i].phone == b.rows[i].phone
    ensures c.calls == b.calls
  {
    var b1 := Report(b, k);
    bs, es := One(b, Reports(k));
    if b.attempts[k].phase.answer == Refused {
      c := b1;
    } else {
      assert forall l :: 0 <= l < |b1.attempts| && b1.attempts[l].row == i ==> !Running(b1.attempts[l]);
      var back := Resolves(i, true, NotDelivered);
      var bs0, es0 := One(b1, back);
      bs, es := Join(b, b1, bs, es, bs0, es0);
      c := Step(b1, back);
    }
  }

  lemma Overtaken(b: Box, i: nat, k: nat) returns (bs: seq<Box>, es: seq<Event>)
    requires LeftBehind(b, i, k)
    ensures QuietFrom(b, bs, es) && !CallsOrdered(bs[|es|])
  {
    var n := |b.rows|;
    var c, bs0, es0 := SendNewer(b, i, k);
    if c.attempts[k].phase.Claimed? {
      var bs1, es1 := CallTooLate(c, i, k, n);
      bs, es := Join(b, c, bs0, es0, bs1, es1);
    } else {
      var d, bs1, es1 := PutBack(c, i, k, n);
      bs, es := Join(b, c, bs0, es0, bs1, es1);
      var bs2, es2 := ClaimAgain(d, i, n);
      bs, es := Join(b, d, bs, es, bs2, es2);
    }
  }

  // ------------------------------------------------- from a harmful resolution

  /** Behind a row in hand the later rows of its phone wait. */
  lemma LaterRowsWait(b: Box, i: nat, k: nat)
    requires Lanes(b) && k < |b.attempts| && b.attempts[k].row == i && Running(b.attempts[k])
    requires i < |b.rows| && !Ended(b.rows[i].state)
    ensures LaterIdle(b, i) && Sendable(b, i) && Alone(b, i, k)
  {
    assert Claiming(b, k);
    forall m | i < m < |b.rows| && b.rows[m].phone == b.rows[i].phone ensures Idle(b, m) {
      assert Blocked(b.rows, m);
      forall l | 0 <= l < |b.attempts| && b.attempts[l].row == m ensures !Running(b.attempts[l]) {
        assert Running(b.attempts[l]) ==> Claiming(b, l);
      }
    }
  }

  /** The handler and the row after the resolution. */
  lemma AfterHarm(b: Box, e: Event, k: nat)
    requires Lanes(b) && Enabled(b, e) && Harmful(b, e) && k < |b.attempts| && HarmedBy(b, e, k)
    ensures var c := Step(b, e);
            && Sendable(c, e.row) && LaterIdle(c, e.row) && Alone(c, e.row, k) && c.attempts == b.attempts
            && (e.outcome == NotDelivered ==> c.rows[e.row].state == Pending)
            && (e.outcome != NotDelivered ==> LeftBehind(c, e.row, k))
  {
    LaterRowsWait(b, e.row, k);
    var i, c := e.row, Step(b, e);
    forall m | i < m < |c.rows| && c.rows[m].phone == c.rows[i].phone ensures Idle(c, m) {
      assert Idle(b, m);
    }
  }

  /** A row put back under its handler gets a second attempt. */
  lemma SecondAttempt(b: Box, i: nat, k: nat) returns (c: Box, bs: seq<Box>, es: seq<Event>)
    requires Sendable(b, i) && b.rows[i].state == Pending && LaterIdle(b, i) && Alone(b, i, k)
    requires k < |b.attempts| && b.attempts[k].row == i && Running(b.attempts[k])
    ensures Leads(b, c, bs, es) && TwoAttempts(c, i, k, |b.attempts|) && c.attempts[k] == b.attempts[k]
  {
    c := SetState(b, i, Sending).(attempts := b.attempts + [Attempt(i, Claimed)]);
    assert Step(b, Claims(i, true, true)) == c;
    bs, es := One(b, Claims(i, true, true));
    forall m | i < m < |c.rows| && c.rows[m].phone == c.rows[i].phone ensures Idle(c, m) {
      assert Idle(b, m);
    }
  }

  predicate TwoAttempts(b: Box, i: nat, k: nat, a: nat) {
    && Sendable(b, i) && LaterIdle(b, i)
    && k < a < |b.attempts| && b.attempts[k].row == i && Running(b.attempts[k]) && b.attempts[a] == Attempt(i, Claimed)
    && forall l :: 0 <= l < |b.attempts| && l != k && l != a && b.attempts[l].row == i ==> !Running(b.attempts[l])
  }

  /** One of two attempts is accepted and reports it: the other is left behind. */
  lemma AcceptOne(b: Box, i: nat, k: nat, a: nat) returns (c: Box, left: nat, bs: seq<Box>, es: seq<Event>)
    requires TwoAttempts(b, i, k, a)
    ensures Leads(b, c, bs, es) && LeftBehind(c, i, left)
  {
    var done := if b.attempts[k].phase in {Claimed, Answered(Accepted)} then k else a;
    left := if done == k then a else k;
    var b1 := b;
    bs, es := [b], [];
    if b.attempts[done].phase.Claimed? {
      b1 := CallChannel(b, done, Accepted);
      bs, es := One(b, Calls(done, Accepted));
    }
    assert b1.rows == b.rows && b1.attempts == b.attempts[done := Attempt(i, Answered(Accepted))];
    c := Report(b1, done);
    var bs0, es0 := One(b1, Reports(done));
    bs, es := Join(b, b1, bs, es, bs0, es0);
    ReportEnds(b1, i, done);
    forall m | i < m < |c.rows| && c.rows[m].phone == c.rows[i].phone ensures Idle(c, m) {
      assert Idle(b, m);
    }
  }

  lemma ReportEnds(b: Box, i: nat, k: nat)
    requires i < |b.rows| && k < |b.attempts| && b.attempts[k] == Attempt(i, Answered(Accepted))
    ensures var c := Report(b, k);
            && c.rows == b.rows[i := b.rows[i].(state := Sent)]
            && c.attempts == b.attempts[k := Attempt(i, Over)]
  {}

  lemma HarmReorders(b: Box, e: Event) returns (bs: seq<Box>, es: seq<Event>)
    requires Lanes(b) && Enabled(b, e) && Harmful(b, e)
    ensures QuietFrom(Step(b, e), bs, es) && !CallsOrdered(bs[|es|])
  {
    var k :| 0 <= k < |b.attempts| && HarmedBy(b, e, k);
    var c := Step(b, e);
    AfterHarm(b, e, k);
    if e.outcome == NotDelivered {
      var d, bs0, es0 := SecondAttempt(c, e.row, k);
      var f, left, bs1, es1 := AcceptOne(d, e.row, k, |c.attempts|);
      bs, es := Join(c, d, bs0, es0, bs1, es1);
      var bs2, es2 := Overtaken(f, e.row, left);
      bs, es := Join(c, f, bs, es, bs2, es2);
    } else {
      bs, es := Overtaken(c, e.row, k);
    }
  }

  /** The condition is exact: the calls of every phone stay in the order of the
      outbox, in every continuation in which no resolution harms a running
      handler, if and only if this step does not. */
  lemma OrderExactlyWhenHarmless(b: Box, e: Event)
    requires Lanes(b) && Enabled(b, e)
    ensures OrderForever(Step(b, e)) <==> !Harmful(b, e)
  {
    if Harmful(b, e) {
      var bs, es := HarmReorders(b, e);
    } else {
      StepLanes(b, e);
      forall bs: seq<Box>, es: seq<Event> | QuietFrom(Step(b, e), bs, es) ensures CallsOrdered(bs[|es|]) {
        QuietFromKeeps(Step(b, e), bs, es, |es|);
      }
    }
  }
}
