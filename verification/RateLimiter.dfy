/** The fixed-window limiter of the admin routes (AdminRateLimiter). */
module RateLimiter {

  datatype Bucket = Bucket(started: int, count: int)
  datatype Call = Call(key: string, now: int)

  /** max and windowMs are fixed when the limiter is made. */
  datatype Limits = Limits(max: int, windowMs: int)

  function Hit(limits: Limits, buckets: map<string, Bucket>, call: Call): (map<string, Bucket>, bool) {
    if call.key !in buckets || call.now - buckets[call.key].started >= limits.windowMs then
      (buckets[call.key := Bucket(call.now, 1)], true)
    else
      var b := buckets[call.key];
      (buckets[call.key := b.(count := b.count + 1)], b.count + 1 <= limits.max)
  }

  /** The buckets before the k-th call. */
  function BucketsAt(limits: Limits, calls: seq<Call>, k: nat): map<string, Bucket>
    requires k <= |calls|
  {
    if k == 0 then map[] else Hit(limits, BucketsAt(limits, calls, k - 1), calls[k - 1]).0
  }

  predicate Accepted(limits: Limits, calls: seq<Call>, k: nat)
    requires k < |calls|
  {
    Hit(limits, BucketsAt(limits, calls, k), calls[k]).1
  }

  /** How many of the calls i..k for the key were accepted. */
  function AcceptedIn(limits: Limits, calls: seq<Call>, key: string, i: nat, k: nat): nat
    requires i <= k <= |calls|
  {
    if k == i then 0
    else AcceptedIn(limits, calls, key, i, k - 1)
         + (if calls[k - 1].key == key && Accepted(limits, calls, k - 1) then 1 else 0)
  }

  predicate Monotone(calls: seq<Call>) {
    forall i, j :: 0 <= i < j < |calls| ==> calls[i].now <= calls[j].now
  }

  function Least(a: int, b: int): int {
    if a <= b then a else b
  }

  /** A window admits its first call whatever the maximum is. */
  function Quota(limits: Limits): int {
    if limits.max < 1 then 1 else limits.max
  }

  class Limiter {
    const limits: Limits
    var buckets: map<string, Bucket>

    constructor (max: int, windowMs: int)
      ensures limits == Limits(max, windowMs) && buckets == map[]
    {
      limits := Limits(max, windowMs);
      buckets := map[];
    }

    method Check(key: string, now: int) returns (accepted: bool)
      modifies this`buckets
      ensures (buckets, accepted) == Hit(limits, old(buckets), Call(key, now))
    {
      if key !in buckets || now - buckets[key].started >= limits.windowMs {
        buckets := buckets[key := Bucket(now, 1)];
        return true;
      }
      var current := buckets[key];
      current := current.(count := current.count + 1);
      buckets := buckets[key := current];
      accepted := current.count <= limits.max;
    }
  }

  lemma {:induction false} BucketsInRange(limits: Limits, calls: seq<Call>, key: string, k: nat)
    requires Monotone(calls) && k <= |calls| && key in BucketsAt(limits, calls, k)
    ensures BucketsAt(limits, calls, k)[key].count >= 1
    ensures k > 0 && BucketsAt(limits, calls, k)[key].started <= calls[k - 1].now
  {
    if k == 0 {
    } else if key in BucketsAt(limits, calls, k - 1) {
      BucketsInRange(limits, calls, key, k - 1);
    }
  }

  /** From call i on, while less than a window passes: what was accepted is
      what the key's bucket counted after its first call, if that was before i,
      and at most one bucket more. */
  lemma {:induction false} AcceptedSoFar(limits: Limits, calls: seq<Call>, key: string, i: nat, k: nat)
    requires Monotone(calls) && i < |calls| && i <= k <= |calls|
    requires k > i ==> calls[k - 1].now - calls[i].now < limits.windowMs
    ensures var bs, n := BucketsAt(limits, calls, k), AcceptedIn(limits, calls, key, i, k);
            if key !in bs then n == 0
            else if bs[key].started < calls[i].now then n <= Least(bs[key].count, Quota(limits)) - 1
            else n <= Quota(limits) - 1 + Least(bs[key].count, Quota(limits))
  {
    if key in BucketsAt(limits, calls, k) { BucketsInRange(limits, calls, key, k); }
    if k == i {
    } else {
      AcceptedSoFar(limits, calls, key, i, k - 1);
    }
  }

  /** On a clock that never goes back, fewer than twice the maximum of a key's
      calls are accepted in any span shorter than the window. */
  lemma AtMostTwiceTheMaximum(limits: Limits, calls: seq<Call>, key: string, i: nat, j: nat)
    requires Monotone(calls) && i <= j < |calls| && calls[j].now - calls[i].now < limits.windowMs
    ensures AcceptedIn(limits, calls, key, i, j + 1) <= 2 * Quota(limits) - 1
  {
    AcceptedSoFar(limits, calls, key, i, j + 1);
  }

  /** n calls of one key at one time. */
  function Burst(key: string, now: int, n: nat): (s: seq<Call>)
    ensures |s| == n && forall i :: 0 <= i < n ==> s[i] == Call(key, now)
  {
    seq(n, _ => Call(key, now))
  }

  /** The bound is reached: one call, the rest of its quota just before its
      window ends, and a full quota when the next one begins. */
  function WorstCase(limits: Limits, key: string): seq<Call>
    requires limits.max >= 1
  {
    Burst(key, 0, 1) + Burst(key, limits.windowMs - 1, limits.max - 1) + Burst(key, limits.windowMs, limits.max)
  }

  lemma {:induction false} WorstCaseBuckets(limits: Limits, key: string, k: nat)
    requires limits.max >= 1 && limits.windowMs >= 2 && 1 <= k <= 2 * limits.max
    ensures var bs := BucketsAt(limits, WorstCase(limits, key), k);
            key in bs && bs[key] == if k <= limits.max then Bucket(0, k) else Bucket(limits.windowMs, k - limits.max)
    ensures AcceptedIn(limits, WorstCase(limits, key), key, 1, k) == k - 1
  {
    if k == 1 {
    } else {
      WorstCaseBuckets(limits, key, k - 1);
    }
  }

  lemma BoundIsReached(limits: Limits, key: string)
    requires limits.max >= 1 && limits.windowMs >= 2
    ensures var calls := WorstCase(limits, key);
            && Monotone(calls) && |calls| == 2 * limits.max
            && calls[|calls| - 1].now - calls[1].now < limits.windowMs
            && AcceptedIn(limits, calls, key, 1, |calls|) == 2 * limits.max - 1
  {
    WorstCaseBuckets(limits, key, 2 * limits.max);
  }

  // ------------------------------------------------------------- inside one window

  /** How many of the calls i..k are for the key. */
  function CallsIn(calls: seq<Call>, key: string, i: nat, k: nat): nat
    requires i <= k <= |calls|
  {
    if k == i then 0 else CallsIn(calls, key, i, k - 1) + (if calls[k - 1].key == key then 1 else 0)
  }

  /** Call i opens a window: it is the key's first, or the window before it is over. */
  predicate Opens(limits: Limits, calls: seq<Call>, i: nat)
    requires i < |calls|
  {
    var bs, c := BucketsAt(limits, calls, i), calls[i];
    c.key !in bs || c.now - bs[c.key].started >= limits.windowMs
  }

  predicate InWindow(limits: Limits, calls: seq<Call>, i: nat, k: nat)
    requires i < |calls| && k <= |calls|
  {
    forall j :: i < j < k && calls[j].key == calls[i].key ==> calls[j].now - calls[i].now < limits.windowMs
  }

  lemma {:induction false} WindowCounts(limits: Limits, calls: seq<Call>, i: nat, k: nat)
    requires i < k <= |calls| && Opens(limits, calls, i) && InWindow(limits, calls, i, k)
    ensures var bs := BucketsAt(limits, calls, k);
            calls[i].key in bs && bs[calls[i].key] == Bucket(calls[i].now, CallsIn(calls, calls[i].key, i, k))
    ensures CallsIn(calls, calls[i].key, i, k) >= 1
  {
    if k == i + 1 {
      assert CallsIn(calls, calls[i].key, i, i) == 0;
    } else {
      WindowCounts(limits, calls, i, k - 1);
    }
  }

  /** From the call that opens a window on, a call of the key is accepted exactly
      when it is that first one or the calls of the window do not exceed the
      maximum, rejected ones counted with them. */
  lemma AcceptedExactly(limits: Limits, calls: seq<Call>, i: nat, k: nat)
    requires i <= k < |calls| && Opens(limits, calls, i) && InWindow(limits, calls, i, k + 1)
    requires calls[k].key == calls[i].key
    ensures Accepted(limits, calls, k) <==> k == i || CallsIn(calls, calls[i].key, i, k + 1) <= limits.max
  {
    if k > i { WindowCounts(limits, calls, i, k); }
  }
}
