/** What each step of the dispatcher does to a delivery, told by the events
    themselves, and that the next delivery comes to its end. */
module IntegrationEffects {
  import opened Integration
  import opened IntegrationTheorems

  // -------------------------------------------------------------- what rows become

  /** The report of a finished call of row i. */
  predicate ReportsOn(d: Dispatch, e: Event, i: nat) {
    && e.Reports? && e.worker < |d.workers| && d.workers[e.worker].row == i
    && d.workers[e.worker].phase.Finished?
  }

  /** The call's failure is final: nobody knows whether it arrived, it cannot be
      repeated, or it was the third. */
  predicate FinalFailure(w: Worker) {
    && w.phase.Finished? && w.phase.result.Failure?
    && (w.phase.result.ambiguous || !w.phase.result.retryable || w.attempt >= 3)
  }

  /** Everything before row i has been delivered. */
  predicate IsNext(d: Dispatch, i: nat) {
    i < |d.rows| && forall j :: 0 <= j < i ==> d.rows[j].state == Delivered
  }

  predicate Becomes(d: Dispatch, e: Event, i: nat, s: State)
    requires i < |d.rows|
  {
    match s
    case Active => e == Claims(i, true) && d.rows[i].state == Pending && IsNext(d, i)
    case Delivered =>
      d.rows[i].state == Active && ReportsOn(d, e, i) && d.workers[e.worker].phase.result == Success
    case DeadLetter => d.rows[i].state == Active && ReportsOn(d, e, i) && FinalFailure(d.workers[e.worker])
    case Pending =>
      || (&& d.rows[i].state == Active && ReportsOn(d, e, i)
          && d.workers[e.worker].phase.result != Success && !FinalFailure(d.workers[e.worker]))
      || (d.rows[i].state == Active && e == Recovers(i))
      || (d.rows[i].state == DeadLetter && e == Replays(i))
  }

  /** Every step leaves a row in the state its event tells, or as it was: it is
      delivered exactly by the report of a successful call while it is active,
      and dead exactly by that of a final failure. */
  lemma RowBecomesExactly(d: Dispatch, e: Event, i: nat, s: State)
    requires Enabled(d, e) && i < |d.rows|
    ensures i < |Step(d, e).rows|
    ensures Becomes(d, e, i, s) ==> Step(d, e).rows[i].state == s
    ensures Step(d, e).rows[i].state != d.rows[i].state ==> Becomes(d, e, i, Step(d, e).rows[i].state)
  {}

  /** The attempts are counted by the claims that take effect, and start anew with
      a replay. */
  lemma AttemptsExactly(d: Dispatch, e: Event, i: nat)
    requires Enabled(d, e) && i < |d.rows|
    ensures Step(d, e).rows[i].attempts ==
              if Becomes(d, e, i, Active) then d.rows[i].attempts + 1
              else if e == Replays(i) && d.rows[i].state == DeadLetter then 0
              else d.rows[i].attempts
  {}

  /** The number a worker carries is the one its claim gave it, and how far each
      has come. */
  lemma WorkersExactly(d: Dispatch, e: Event, w: nat)
    requires Enabled(d, e)
    ensures w < |d.workers| ==>
              && w < |Step(d, e).workers|
              && Step(d, e).workers[w] == d.workers[w].(phase := Step(d, e).workers[w].phase)
              && Step(d, e).workers[w].phase ==
                   if e.Calls? && e.worker == w then Finished(e.result)
                   else if e.GivesUp? && e.worker == w then Finished(Failure(false, false))
                   else if (e.Reports? || e.Dies?) && e.worker == w then Gone
                   else d.workers[w].phase
    ensures w == |d.workers| && w < |Step(d, e).workers| ==>
              && e.Claims? && Becomes(d, e, e.row, Active)
              && Step(d, e).workers[w] == Worker(e.row, d.rows[e.row].attempts + 1, Claimed)
    ensures e.Claims? && Becomes(d, e, e.row, Active) ==> |Step(d, e).workers| == |d.workers| + 1
  {}

  // ------------------------------------------------------------------ over runs

  /** A row is delivered only by a call of it that succeeded and was reported. */
  lemma {:induction false} DeliveredWasReported(ds: seq<Dispatch>, es: seq<Event>, i: nat, n: nat) returns (k: nat)
    requires Run(ds, es) && ds[0] == EMPTY && n <= |es| && i < |ds[n].rows| && ds[n].rows[i].state == Delivered
    ensures k < n && i < |ds[k].rows| && Becomes(ds[k], es[k], i, Delivered)
  {
    k := 0;
    if n == 0 {
      assert false;
    } else if i < |ds[n - 1].rows| && ds[n - 1].rows[i].state == Delivered {
      k := DeliveredWasReported(ds, es, i, n - 1);
    } else {
      k := n - 1;
      if i < |ds[k].rows| { RowBecomesExactly(ds[k], es[k], i, Delivered); } else { NewRowIsPending(ds[k], es[k], i); }
    }
  }

  lemma NewRowIsPending(d: Dispatch, e: Event, i: nat)
    requires Enabled(d, e) && |d.rows| <= i < |Step(d, e).rows|
    ensures e.Inserted? && i == |d.rows| && Step(d, e).rows[i] == NEW_ROW
  {}

  // ------------------------------------------------------------------- progress

  /** The claim, the call and the report. */
  function OneDelivery(i: nat, w: nat, result: Result): seq<Event> {
    [Claims(i, true), Calls(w, result), Reports(w)]
  }

  lemma Delivers(d: Dispatch, i: nat, result: Result) returns (ds: seq<Dispatch>)
    requires IsNext(d, i) && d.rows[i].state == Pending
    ensures Run(ds, OneDelivery(i, |d.workers|, result)) && ds[0] == d
    ensures |ds[3].rows| == |d.rows| && forall j :: 0 <= j < |d.rows| && j != i ==> ds[3].rows[j] == d.rows[j]
    ensures ds[3].rows[i].state ==
              match result
              case Success => Delivered
              case Failure(ambiguous, retryable) =>
                if ambiguous || !retryable || d.rows[i].attempts + 1 >= 3 then DeadLetter else Pending
  {
    var w := |d.workers|;
    var d1 := Step(d, Claims(i, true));
    var d2 := Step(d1, Calls(w, result));
    ds := [d, d1, d2, Step(d2, Reports(w))];
  }

  /** The first undelivered event, when it is pending, can be delivered, and only
      then can the one after it be claimed. */
  lemma NextIsDelivered(d: Dispatch, i: nat) returns (ds: seq<Dispatch>)
    requires IsNext(d, i) && d.rows[i].state == Pending
    ensures Run(ds, OneDelivery(i, |d.workers|, Success)) && ds[0] == d
    ensures |ds[3].rows| == |d.rows| && ds[3].rows[i].state == Delivered
    ensures i + 1 < |d.rows| ==> IsNext(ds[3], i + 1)
    ensures i + 1 < |d.rows| && d.rows[i + 1].state == Pending ==>
              && !Becomes(d, Claims(i + 1, true), i + 1, Active)
              && Becomes(ds[3], Claims(i + 1, true), i + 1, Active)
  {
    ds := Delivers(d, i, Success);
  }

  /** An event that failed for good blocks all later ones until it is replayed and
      delivered. */
  lemma DeadLetterBlocks(d: Dispatch, e: Event, i: nat, j: nat)
    requires Enabled(d, e) && i < j < |d.rows| && d.rows[i].state == DeadLetter
    ensures !Becomes(d, e, j, Active)
    ensures e != Replays(i) ==> Step(d, e).rows[i].state == DeadLetter
  {
    RowBecomesExactly(d, e, i, DeadLetter);
  }

  lemma ReplayedIsDelivered(d: Dispatch, i: nat) returns (ds: seq<Dispatch>, es: seq<Event>)
    requires IsNext(d, i) && d.rows[i].state == DeadLetter
    ensures Run(ds, es) && ds[0] == d && es != [] && es[0] == Replays(i)
    ensures |ds[|es|].rows| == |d.rows| && ds[|es|].rows[i].state == Delivered
  {
    var d1 := Step(d, Replays(i));
    ds := NextIsDelivered(d1, i);
    es := [Replays(i)] + OneDelivery(i, |d1.workers|, Success);
    ds := [d] + ds;
  }
}
