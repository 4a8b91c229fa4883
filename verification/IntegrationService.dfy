/** The dispatcher as the program runs it: an object whose methods update the
    delivery rows in place. Each method is proved to be the step that module
    Integration describes. */
module IntegrationService {
  import opened Counting
  import opened Integration
  import opened IntegrationTheorems

  class Dispatcher {
    var rows: seq<Row>
    var workers: seq<Worker>

    function Value(): Dispatch
      reads this
    {
      Dispatch(rows, workers)
    }

    constructor ()
      ensures Value() == EMPTY
    {
      rows, workers := [], [];
    }

    /** The subquery of the claim. */
    method AllPriorDelivered(i: nat) returns (delivered: bool)
      requires i <= |rows|
      ensures delivered <==> AllDeliveredBefore(rows, i)
    {
      for j := 0 to i
        invariant AllDeliveredBefore(rows, j)
      {
        if rows[j].state != Delivered { return false; }
      }
      delivered := true;
    }

    /** deliverIntegration up to its claim; the worker that claimed, if any. */
    method ClaimDelivery(i: nat, due: bool) returns (claimed: bool)
      requires i < |rows|
      modifies this
      ensures Value() == Claim(old(Value()), i, due)
      ensures claimed <==> |workers| > |old(workers)|
      ensures claimed && old(InOrder(Value())) ==> InOrder(Value()) && rows[i].state == Active
    {
      ghost var before := Value();
      claimed := false;
      if rows[i].state == Pending && due {
        var delivered := AllPriorDelivered(i);
        if delivered {
          var attempt := rows[i].attempts + 1;
          rows := rows[i := rows[i].(state := Active, attempts := attempt)];
          workers := workers + [Worker(i, attempt, Claimed)];
          claimed := true;
        }
      }
      if InOrder(before) { StepInOrder(before, Claims(i, due)); }
    }

    method Deliver(w: nat, result: Result)
      requires w < |workers| && workers[w].row < |rows|
      modifies this
      ensures Value() == CallAdapter(old(Value()), w, result)
    {
      var i := workers[w].row;
      workers := workers[w := workers[w].(phase := Finished(result))];
      rows := rows[i := rows[i].(calls := rows[i].calls + 1)];
    }

    /** The updates after the call, each guarded by state = active. */
    method ReportDelivery(w: nat)
      requires w < |workers| && workers[w].row < |rows| && workers[w].phase.Finished?
      modifies this
      ensures Value() == Report(old(Value()), w)
    {
      var i, result := workers[w].row, workers[w].phase.result;
      if rows[i].state == Active {
        if result.Success? {
          rows := rows[i := rows[i].(state := Delivered)];
        } else if result.ambiguous || !result.retryable || workers[w].attempt >= MAX_ATTEMPTS {
          rows := rows[i := rows[i].(state := DeadLetter)];
        } else {
          rows := rows[i := rows[i].(state := Pending)];
        }
      }
      workers := workers[w := workers[w].(phase := Gone)];
    }

    /** The first statement of recoverIntegrationQueue, on the rows whose lease
        is stale. */
    method RecoverLeases(stale: set<nat>)
      modifies this`rows
      ensures Value() == RecoverAll(old(Value()), stale, |old(rows)|)
      ensures old(EffortInv(Value())) ==> EffortInv(Value())
    {
      var n := |rows|;
      for i := 0 to n
        invariant Value() == RecoverAll(old(Value()), stale, i)
        invariant old(EffortInv(Value())) ==> EffortInv(Value())
      {
        if i in stale && rows[i].state == Active {
          if old(EffortInv(Value())) { StepKeeps(Value(), Recovers(i)); }
          rows := rows[i := rows[i].(state := Pending, recovered := rows[i].recovered + 1,
                                     everRecovered := rows[i].everRecovered + 1)];
        }
      }
    }

    method ReplayDelivery(i: nat) returns (ok: bool)
      requires i < |rows|
      modifies this`rows
      ensures ok <==> old(rows)[i].state == DeadLetter
      ensures Value() == Replay(old(Value()), i)
      ensures ok ==> rows[i].state == Pending && rows[i].attempts == 0
    {
      ok := rows[i].state == DeadLetter;
      if ok {
        rows := rows[i := Row(Pending, 0, 0, rows[i].everRecovered, Count(workers, MayRetry(i)),
                              Count(workers, MayCall(i)), 0)];
      }
    }
  }
}
