/** What holds of the dispatcher over every run: deliveries in event order, one
    lease at a time, and bounded effort. */
module IntegrationTheorems {
  import opened Counting
  import opened Integration

  // ------------------------------------------------------------------- order

  /** Only the first undelivered row is ever active. */
  predicate InOrder(d: Dispatch) {
    && (forall i :: 0 <= i < |d.rows| && d.rows[i].state != Pending ==> AllDeliveredBefore(d.rows, i))
    && (forall w :: 0 <= w < |d.workers| ==> d.workers[w].row < |d.rows|)
  }

  lemma StepInOrder(d: Dispatch, e: Event)
    requires Enabled(d, e) && InOrder(d)
    ensures InOrder(Step(d, e))
  {}

  lemma {:induction false} InOrderAlong(ds: seq<Dispatch>, es: seq<Event>, n: nat)
    requires Run(ds, es) && ds[0] == EMPTY && n <= |es|
    ensures InOrder(ds[n])
  {
    if n == 0 {
    } else {
      InOrderAlong(ds, es, n - 1);
      StepInOrder(ds[n - 1], es[n - 1]);
    }
  }

  /** Through claims, late reports from expired leases, recoveries, dead letters
      and replays: the delivered events are a prefix of the event order, and
      at most one row is active, the one right after that prefix. */
  lemma DeliveredIsPrefix(ds: seq<Dispatch>, es: seq<Event>, n: nat, i: nat, j: nat)
    requires Run(ds, es) && ds[0] == EMPTY && n <= |es| && i < j < |ds[n].rows|
    ensures ds[n].rows[j].state == Delivered ==> ds[n].rows[i].state == Delivered
    ensures ds[n].rows[i].state == Active ==> ds[n].rows[j].state !in {Active, Delivered}
    ensures ds[n].rows[j].state == Active ==> ds[n].rows[i].state == Delivered
  {
    InOrderAlong(ds, es, n);
  }

  /** A delivered event is delivered for good. */
  lemma {:induction false} DeliveredForGood(ds: seq<Dispatch>, es: seq<Event>, i: nat, m: nat, n: nat)
    requires Run(ds, es) && m <= n <= |es| && i < |ds[m].rows| && ds[m].rows[i].state == Delivered
    ensures i < |ds[n].rows| && ds[n].rows[i].state == Delivered
  {
    if m == n {
    } else {
      DeliveredForGood(ds, es, i, m, n - 1);
      DeliveredStays(ds[n - 1], es[n - 1], i);
    }
  }

  lemma DeliveredStays(d: Dispatch, e: Event, i: nat)
    requires Enabled(d, e) && i < |d.rows| && d.rows[i].state == Delivered
    ensures i < |Step(d, e).rows| && Step(d, e).rows[i].state == Delivered
  {}

  // ------------------------------------------------------------------ effort

  /** Attempts beyond the second: only these can not be explained by the limit. */
  function Excess(r: Row): nat {
    if r.attempts < MAX_ATTEMPTS then 0 else r.attempts - (MAX_ATTEMPTS - 1)
  }

  /** What excuses further attempts: a lease taken back since the last replay,
      or a worker left over then that could still put the row back. */
  function Excuses(r: Row): nat {
    r.recovered + r.mayRetry
  }

  function Leased(r: Row): nat {
    if r.state == Active then 1 else 0
  }

  /** The running total behind the bounds, for one row. */
  predicate Effort(ws: seq<Worker>, i: nat, r: Row) {
    && (r.state in {Pending, Active} ==> Count(ws, MayRetry(i)) + Excess(r) <= Excuses(r) + Leased(r))
    && Excess(r) <= Excuses(r) + 1
    && Count(ws, Occupies(i)) <= r.everRecovered + Leased(r)
    && Excuses(r) <= r.everRecovered
    && r.calls + Count(ws, MayCall(i)) <= r.attempts + r.mayCall
  }

  ghost predicate EffortInv(d: Dispatch) {
    && InOrder(d)
    && forall i :: 0 <= i < |d.rows| ==> Effort(d.workers, i, d.rows[i])
  }

  lemma ClaimEffort(d: Dispatch, i: nat, due: bool, k: nat)
    requires i < |d.rows| && k < |d.rows| && Effort(d.workers, k, d.rows[k])
    ensures Effort(Claim(d, i, due).workers, k, Claim(d, i, due).rows[k])
  {
    var w := Worker(i, d.rows[i].attempts + 1, Claimed);
    CountSnoc(d.workers, w, MayRetry(k));
    CountSnoc(d.workers, w, Occupies(k));
    CountSnoc(d.workers, w, MayCall(k));
  }

  /** How the counts of row k move when worker w moves on. */
  lemma PhaseCounts(d: Dispatch, w: nat, p: Phase, k: nat)
    requires w < |d.workers|
    ensures var v, ws := d.workers[w], SetPhase(d, w, p).workers;
            && Count(ws, MayRetry(k)) == Count(d.workers, MayRetry(k))
                 - (if MayRetry(k)(v) then 1 else 0) + (if MayRetry(k)(v.(phase := p)) then 1 else 0)
            && Count(ws, Occupies(k)) == Count(d.workers, Occupies(k))
                 - (if Occupies(k)(v) then 1 else 0) + (if Occupies(k)(v.(phase := p)) then 1 else 0)
            && Count(ws, MayCall(k)) == Count(d.workers, MayCall(k))
                 - (if MayCall(k)(v) then 1 else 0) + (if MayCall(k)(v.(phase := p)) then 1 else 0)
  {
    var x := d.workers[w].(phase := p);
    CountUpdate(d.workers, w, x, MayRetry(k));
    CountUpdate(d.workers, w, x, Occupies(k));
    CountUpdate(d.workers, w, x, MayCall(k));
  }

  lemma ReportEffort(d: Dispatch, w: nat, k: nat)
    requires w < |d.workers| && d.workers[w].row < |d.rows| && d.workers[w].phase.Finished?
    requires k < |d.rows| && Effort(d.workers, k, d.rows[k])
    ensures Effort(Report(d, w).workers, k, Report(d, w).rows[k])
  {
    PhaseCounts(d, w, Gone, k);
    assert Report(d, w).workers == SetPhase(d, w, Gone).workers;
  }

  lemma CallEffort(d: Dispatch, w: nat, result: Result, k: nat)
    requires w < |d.workers| && d.workers[w].row < |d.rows| && d.workers[w].phase.Claimed?
    requires k < |d.rows| && Effort(d.workers, k, d.rows[k])
    ensures Effort(CallAdapter(d, w, result).workers, k, CallAdapter(d, w, result).rows[k])
  {
    PhaseCounts(d, w, Finished(result), k);
    assert CallAdapter(d, w, result).workers == SetPhase(d, w, Finished(result)).workers;
  }

  lemma PhaseEffort(d: Dispatch, w: nat, p: Phase, k: nat)
    requires w < |d.workers| && (p == Gone || (p.Finished? && d.workers[w].phase.Claimed?))
    requires k < |d.rows| && Effort(d.workers, k, d.rows[k])
    ensures Effort(SetPhase(d, w, p).workers, k, d.rows[k])
  {
    PhaseCounts(d, w, p, k);
  }

  lemma OnlyRunningCount(ws: seq<Worker>, k: nat)
    ensures Count(ws, MayCall(k)) <= Count(ws, Occupies(k))
    ensures Count(ws, MayRetry(k)) <= Count(ws, Occupies(k))
  {
    CountFewer(ws, MayCall(k), Occupies(k));
    CountFewer(ws, MayRetry(k), Occupies(k));
  }

  lemma ReplayEffort(d: Dispatch, i: nat, k: nat)
    requires i < |d.rows| && k < |d.rows| && Effort(d.workers, k, d.rows[k])
    ensures Effort(Replay(d, i).workers, k, Replay(d, i).rows[k])
  {
    OnlyRunningCount(d.workers, k);
  }

  lemma NewRowEffort(ws: seq<Worker>, n: nat, r: Row)
    requires forall w :: 0 <= w < |ws| ==> ws[w].row < n
    requires r.state == Pending && r.attempts == 0 && r.recovered == 0 && r.everRecovered == 0
    requires r.mayRetry == 0 && r.mayCall == 0 && r.calls == 0
    ensures Effort(ws, n, r)
  {
    CountNone(ws, MayRetry(n));
    CountNone(ws, Occupies(n));
    CountNone(ws, MayCall(n));
  }

  lemma StepEffort(d: Dispatch, e: Event, k: nat)
    requires Enabled(d, e) && EffortInv(d) && k < |d.rows|
    ensures k < |Step(d, e).rows| && Effort(Step(d, e).workers, k, Step(d, e).rows[k])
  {
    assert Effort(d.workers, k, d.rows[k]);
    match e
    case Claims(i, due) => ClaimEffort(d, i, due, k);
    case Calls(w, result) => CallEffort(d, w, result, k);
    case GivesUp(w) => PhaseEffort(d, w, Finished(Failure(false, false)), k);
    case Reports(w) => ReportEffort(d, w, k);
    case Dies(w) => PhaseEffort(d, w, Gone, k);
    case Replays(i) => ReplayEffort(d, i, k);
    case _ =>
  }

  lemma StepKeeps(d: Dispatch, e: Event)
    requires Enabled(d, e) && EffortInv(d)
    ensures EffortInv(Step(d, e))
  {
    var c := Step(d, e);
    StepInOrder(d, e);
    forall k | 0 <= k < |c.rows| ensures Effort(c.workers, k, c.rows[k]) {
      if k < |d.rows| { StepEffort(d, e, k); } else { NewRowEffort(d.workers, k, c.rows[k]); }
    }
  }

  lemma {:induction false} EffortAlong(ds: seq<Dispatch>, es: seq<Event>, n: nat)
    requires Run(ds, es) && ds[0] == EMPTY && n <= |es|
    ensures EffortInv(ds[n])
  {
    if n == 0 {
    } else {
      EffortAlong(ds, es, n - 1);
      StepKeeps(ds[n - 1], es[n - 1]);
    }
  }

  /** Since the last replay, attempts are at most three, plus the leases taken
      back since, plus the workers left over from before it that could still put
      the row back; and over the whole life of the row at most three plus the
      leases ever taken back. */
  lemma BoundedEffort(ds: seq<Dispatch>, es: seq<Event>, n: nat, i: nat)
    requires Run(ds, es) && ds[0] == EMPTY && n <= |es| && i < |ds[n].rows|
    ensures var r := ds[n].rows[i];
            && r.attempts <= MAX_ATTEMPTS + r.recovered + r.mayRetry
            && r.attempts <= MAX_ATTEMPTS + r.everRecovered
  {
    EffortAlong(ds, es, n);
    assert Effort(ds[n].workers, i, ds[n].rows[i]);
  }

  /** Calls since the last replay never exceed the attempts and the workers left
      over from before it that had not called yet. */
  lemma CallsWithinAttempts(ds: seq<Dispatch>, es: seq<Event>, n: nat, i: nat)
    requires Run(ds, es) && ds[0] == EMPTY && n <= |es| && i < |ds[n].rows|
    ensures ds[n].rows[i].calls <= ds[n].rows[i].attempts + ds[n].rows[i].mayCall
  {
    EffortAlong(ds, es, n);
    assert Effort(ds[n].workers, i, ds[n].rows[i]);
  }

  // ------------------------------------------- when the plain bounds hold

  /** A run that does not replay row i again. */
  ghost predicate RunFrom(d: Dispatch, i: nat, ds: seq<Dispatch>, es: seq<Event>) {
    Run(ds, es) && ds[0] == d && forall k :: 0 <= k < |es| ==> es[k] != Replays(i)
  }

  /** From d until the next replay: three attempts, and one for each lease taken back. */
  ghost predicate AttemptsBounded(d: Dispatch, i: nat) {
    forall ds: seq<Dispatch>, es: seq<Event> :: RunFrom(d, i, ds, es) && i < |ds[|es|].rows| ==>
      ds[|es|].rows[i].attempts <= MAX_ATTEMPTS + ds[|es|].rows[i].recovered
  }

  /** From d until the next replay: no more adapter calls than attempts. */
  ghost predicate CallsBounded(d: Dispatch, i: nat) {
    forall ds: seq<Dispatch>, es: seq<Event> :: RunFrom(d, i, ds, es) && i < |ds[|es|].rows| ==>
      ds[|es|].rows[i].calls <= ds[|es|].rows[i].attempts
  }

  lemma {:induction false} EffortFrom(d: Dispatch, i: nat, ds: seq<Dispatch>, es: seq<Event>, n: nat)
    requires EffortInv(d) && i < |d.rows| && RunFrom(d, i, ds, es) && n <= |es|
    ensures EffortInv(ds[n]) && i < |ds[n].rows|
    ensures ds[n].rows[i].mayRetry == d.rows[i].mayRetry && ds[n].rows[i].mayCall == d.rows[i].mayCall
  {
    if n == 0 {
    } else {
      EffortFrom(d, i, ds, es, n - 1);
      StepKeeps(ds[n - 1], es[n - 1]);
      LeftOverStays(ds[n - 1], es[n - 1], i);
    }
  }

  lemma LeftOverStays(d: Dispatch, e: Event, i: nat)
    requires Enabled(d, e) && i < |d.rows| && e != Replays(i)
    ensures i < |Step(d, e).rows|
    ensures Step(d, e).rows[i].mayRetry == d.rows[i].mayRetry && Step(d, e).rows[i].mayCall == d.rows[i].mayCall
  {}

  /** Right after a replay of row i in a reachable state: the plain bound on
      attempts holds for every continuation exactly when no worker is left over
      that could still put the row back, and the plain bound on calls exactly
      when none is left over that has not called yet. */
  lemma PlainBoundsExactly(c: Dispatch, i: nat)
    requires EffortInv(c) && i < |c.rows| && c.rows[i].state == DeadLetter
    ensures AttemptsBounded(Replay(c, i), i) <==> Count(c.workers, MayRetry(i)) == 0
    ensures CallsBounded(Replay(c, i), i) <==> Count(c.workers, MayCall(i)) == 0
  {
    var d := Replay(c, i);
    StepKeeps(c, Replays(i));
    NoneLeftOver(d, i);
    CountPositive(c.workers, MayRetry(i));
    CountPositive(c.workers, MayCall(i));
    if Count(c.workers, MayRetry(i)) > 0 {
      var w :| 0 <= w < |c.workers| && MayRetry(i)(c.workers[w]);
      var ds, es := LeftOverWorkerAddsAnAttempt(d, i, w);
      assert RunFrom(d, i, ds, es);
    }
    if Count(c.workers, MayCall(i)) > 0 {
      var w :| 0 <= w < |c.workers| && MayCall(i)(c.workers[w]);
      var ds, es := LeftOverWorkerAddsACall(d, i, w);
      assert RunFrom(d, i, ds, es);
    }
  }

  lemma NoneLeftOver(d: Dispatch, i: nat)
    requires EffortInv(d) && i < |d.rows|
    ensures d.rows[i].mayRetry == 0 ==> AttemptsBounded(d, i)
    ensures d.rows[i].mayCall == 0 ==> CallsBounded(d, i)
  {
    forall ds: seq<Dispatch>, es: seq<Event> | RunFrom(d, i, ds, es)
      ensures i < |ds[|es|].rows|
      ensures var r := ds[|es|].rows[i];
              && (d.rows[i].mayRetry == 0 ==> r.attempts <= MAX_ATTEMPTS + r.recovered)
              && (d.rows[i].mayCall == 0 ==> r.calls <= r.attempts)
    {
      EffortFrom(d, i, ds, es, |es|);
      assert Effort(ds[|es|].workers, i, ds[|es|].rows[i]);
    }
  }

  const RETRY := Failure(false, true)

  /** Worker w may still put row i, which is next in order, back. */
  predicate StillThere(d: Dispatch, i: nat, w: nat) {
    && i < |d.rows| && d.rows[i].state == Pending && AllDeliveredBefore(d.rows, i)
    && w < |d.workers| && MayRetry(i)(d.workers[w])
  }

  ghost predicate NoReplays(es: seq<Event>) {
    forall k :: 0 <= k < |es| ==> !es[k].Replays?
  }

  /** Claim anew; then the older worker's failure puts the row back, after its
      call when it has not made it yet. */
  lemma OneMore(d: Dispatch, i: nat, w: nat) returns (ds: seq<Dispatch>, es: seq<Event>)
    requires StillThere(d, i, w)
    ensures Run(ds, es) && NoReplays(es) && ds[0] == d
    ensures var c, r := ds[|es|], d.rows[i];
            && i < |c.rows| && c.rows[i] == r.(attempts := r.attempts + 1, calls := c.rows[i].calls)
            && AllDeliveredBefore(c.rows, i)
            && (r.attempts + 1 < MAX_ATTEMPTS ==> StillThere(c, i, |d.workers|))
  {
    var n := |d.workers|;
    var d1 := Step(d, Claims(i, true));
    assert d1.workers[w] == d.workers[w] && d1.workers[n] == Worker(i, d.rows[i].attempts + 1, Claimed);
    var d2, calls := d1, [];
    if d.workers[w].phase.Claimed? {
      d2, calls := Step(d1, Calls(w, RETRY)), [Calls(w, RETRY)];
    }
    assert d2.workers[w].phase.Finished? && Reported(d2.workers[w].attempt, d2.workers[w].phase.result) == Pending;
    var d3 := Step(d2, Reports(w));
    assert d3.workers[n] == d1.workers[n] && d3.rows[i].state == Pending && AllDeliveredBefore(d3.rows, i);
    es := [Claims(i, true)] + calls + [Reports(w)];
    ds := if calls == [] then [d, d1, d3] else [d, d1, d2, d3];
  }

  /** With such a worker a run leads from a replay to four attempts without a
      lease taken back. */
  lemma LeftOverWorkerAddsAnAttempt(d: Dispatch, i: nat, w: nat) returns (ds: seq<Dispatch>, es: seq<Event>)
    requires StillThere(d, i, w) && d.rows[i].attempts == 0
    ensures Run(ds, es) && NoReplays(es) && ds[0] == d && i < |ds[|es|].rows|
    ensures var r := ds[|es|].rows[i]; r.attempts == MAX_ATTEMPTS + 1 && r.recovered == d.rows[i].recovered
  {
    var ds0, es0 := OneMore(d, i, w);
    var c0 := ds0[|es0|];
    var ds1, es1 := OneMore(c0, i, |d.workers|);
    var c1 := ds1[|es1|];
    var ds2, es2 := OneMore(c1, i, |c0.workers|);
    var last := ds2[|es2|];
    ds, es := Join(ds0, es0, ds1, es1);
    ds, es := Join(ds, es, ds2, es2);
    ds, es := Join(ds, es, [last, Step(last, Claims(i, true))], [Claims(i, true)]);
  }

  /** A left-over worker that has not called yet lets the calls pass the attempts. */
  lemma LeftOverWorkerAddsACall(d: Dispatch, i: nat, w: nat) returns (ds: seq<Dispatch>, es: seq<Event>)
    requires i < |d.rows| && d.rows[i].state == Pending && AllDeliveredBefore(d.rows, i)
    requires w < |d.workers| && MayCall(i)(d.workers[w]) && d.rows[i].attempts == 0 && d.rows[i].calls == 0
    ensures Run(ds, es) && NoReplays(es) && ds[0] == d && i < |ds[|es|].rows|
    ensures ds[|es|].rows[i].calls == ds[|es|].rows[i].attempts + 1
  {
    es := [Claims(i, true), Calls(w, RETRY), Calls(|d.workers|, RETRY)];
    var d1 := Step(d, es[0]);
    var d2 := Step(d1, es[1]);
    assert d2.workers[|d.workers|] == Worker(i, 1, Claimed);
    ds := [d, d1, d2, Step(d2, es[2])];
  }

  lemma Join(ds: seq<Dispatch>, es: seq<Event>, ds1: seq<Dispatch>, es1: seq<Event>)
    returns (all: seq<Dispatch>, events: seq<Event>)
    requires Run(ds, es) && Run(ds1, es1) && ds[|es|] == ds1[0]
    ensures Run(all, events) && all[0] == ds[0] && events == es + es1 && all[|events|] == ds1[|es1|]
  {
    all, events := ds + ds1[1..], es + es1;
    forall i | 0 <= i < |events| ensures Enabled(all[i], events[i]) && all[i + 1] == Step(all[i], events[i]) {
      if i >= |es| { assert all[i] == ds1[i - |es|] && all[i + 1] == ds1[i - |es| + 1]; }
    }
  }

  // ------------------------------------- such a worker can be left over

  predicate Next(d: Dispatch, e: Event, c: Dispatch) {
    Enabled(d, e) && Step(d, e) == c
  }

  /** A row while two workers run, the first one past its lease. */
  const OVERLAP := Dispatch([Row(Active, 2, 1, 1, 0, 0, 0)], [Worker(0, 1, Claimed), Worker(0, 2, Claimed)])

  lemma ReachOverlap() returns (ds: seq<Dispatch>, es: seq<Event>)
    ensures Run(ds, es) && ds[0] == EMPTY && |es| == 4 && ds[4] == OVERLAP
  {
    var d1 := Dispatch([NEW_ROW], []);
    var d2 := Dispatch([Row(Active, 1, 0, 0, 0, 0, 0)], [Worker(0, 1, Claimed)]);
    var d3 := Dispatch([Row(Pending, 1, 1, 1, 0, 0, 0)], [Worker(0, 1, Claimed)]);
    assert Next(EMPTY, Inserted, d1) && Next(d1, Claims(0, true), d2);
    assert Next(d2, Recovers(0), d3) && Next(d3, Claims(0, true), OVERLAP);
    ds, es := [EMPTY, d1, d2, d3, OVERLAP], [Inserted, Claims(0, true), Recovers(0), Claims(0, true)];
  }

  /** A reachable replay after which worker 0, whose lease was taken back, could
      still call and put the row back. */
  lemma LeftOverIsReachable() returns (ds: seq<Dispatch>, es: seq<Event>)
    ensures Run(ds, es) && ds[0] == EMPTY && |es| == 7 && es[6] == Replays(0)
    ensures |ds[6].rows| == 1 && ds[6].rows[0].state == DeadLetter && ds[7] == Replay(ds[6], 0)
    ensures Count(ds[6].workers, MayRetry(0)) > 0 && Count(ds[6].workers, MayCall(0)) > 0
  {
    ds, es := ReachOverlap();
    var d5 := OVERLAP.(workers := [Worker(0, 1, Claimed), Worker(0, 2, Finished(Failure(false, false)))]);
    var d6 := Dispatch([Row(DeadLetter, 2, 1, 1, 0, 0, 0)], [Worker(0, 1, Claimed), Worker(0, 2, Gone)]);
    assert Next(OVERLAP, GivesUp(1), d5) && Next(d5, Reports(1), d6);
    assert MayRetry(0)(d6.workers[0]) && MayCall(0)(d6.workers[0]);
    CountPositive(d6.workers, MayRetry(0));
    CountPositive(d6.workers, MayCall(0));
    ds, es := ds + [d5, d6, Step(d6, Replays(0))], es + [GivesUp(1), Reports(1), Replays(0)];
  }
}
