/** The reordering of a plan inside Engine.finish: a receiver's details are put
    after the counterparty command that creates that receiver. */
module Reorder {
  import opened Types
  import opened Commands

  predicate ReceiverDetails(c: Planned) {
    c.0.Details? && c.0.role == Some(Receiver)
  }

  /** c creates the receiver that the details of request n are about. */
  predicate Creates(c: Planned, n: Option<nat>) {
    c.0.Counterparty? && c.0.ref == n
  }

  /** The first counterparty command for n at or after k. */
  function FirstCreating(cs: seq<Planned>, n: Option<nat>, k: nat): (j: Option<nat>)
    requires k <= |cs|
    ensures j.Some? ==> k <= j.value < |cs| && Creates(cs[j.value], n)
    ensures forall i :: k <= i < (if j.Some? then j.value else |cs|) ==> !Creates(cs[i], n)
    decreases |cs| - k
  {
    if k == |cs| then None else if Creates(cs[k], n) then Some(k) else FirstCreating(cs, n, k + 1)
  }

  function Without<T>(s: seq<T>, j: nat): seq<T>
    requires j < |s|
  {
    s[..j] + s[j + 1..]
  }

  /** The plan after the loop. */
  function Reordered(cs: seq<Planned>): (out: seq<Planned>)
    decreases |cs|
  {
    if cs == [] then []
    else
      var c, rest := cs[0], cs[1..];
      var j := if ReceiverDetails(c) then FirstCreating(rest, c.0.ref, 0) else None;
      if j.Some? then [rest[j.value], c] + Reordered(Without(rest, j.value))
      else [c] + Reordered(rest)
  }

  /** The loop as the program runs it, splicing the plan in place; i is
      detailsIndex. */
  method ReorderPlan(plan: seq<Planned>) returns (cs: seq<Planned>)
    ensures cs == Reordered(plan)
  {
    cs := plan;
    var i := 0;
    assert cs[0..] == cs;
    while i < |cs|
      invariant i <= |cs|
      invariant Reordered(plan) == cs[..i] + Reordered(cs[i..])
      decreases |cs| - i
    {
      Unfolded(cs, i);
      if ReceiverDetails(cs[i]) {
        var found := FindCreating(cs, i + 1, cs[i].0.ref);
        if found.Some? {
          Spliced(cs, i, found.value);
          cs := MovedTo(cs, i, found.value);
          i := i + 1;
        }
      }
      i := i + 1;
    }
    assert cs[..i] == cs && cs[i..] == [];
  }

  /** The two splice calls: cs[j] is taken out and put in at i. */
  function MovedTo(cs: seq<Planned>, i: nat, j: nat): (out: seq<Planned>)
    requires i < j < |cs|
    ensures |out| == |cs|
  {
    var taken := cs[..j] + cs[j + 1..];
    taken[..i] + [cs[j]] + taken[i..]
  }

  lemma Spliced(cs: seq<Planned>, i: nat, j: nat)
    requires i < j < |cs|
    ensures MovedTo(cs, i, j)[..i + 2] == cs[..i] + [cs[j], cs[i]]
    ensures MovedTo(cs, i, j)[i + 2..] == Without(cs[i + 1..], j - i - 1)
  {
    var out, left := MovedTo(cs, i, j), Without(cs[i + 1..], j - i - 1);
    forall k | 0 <= k < i + 2 ensures out[k] == (cs[..i] + [cs[j], cs[i]])[k] {}
    forall k | i + 2 <= k < |out| ensures out[k] == left[k - i - 2] {}
  }

  /** One step of the plan at position i, in terms of the indices of cs. */
  lemma Unfolded(cs: seq<Planned>, i: nat)
    requires i < |cs|
    ensures var j := if ReceiverDetails(cs[i]) then FirstCreating(cs, cs[i].0.ref, i + 1) else None;
            cs[..i] + Reordered(cs[i..]) ==
              if j.Some? then cs[..i] + [cs[j.value], cs[i]] + Reordered(Without(cs[i + 1..], j.value - i - 1))
              else cs[..i + 1] + Reordered(cs[i + 1..])
  {
    var c, rest := cs[i], cs[i + 1..];
    assert cs[i..] == [c] + rest && cs[..i + 1] == cs[..i] + [c];
    HeadStep(c, rest);
    TailIndex(cs, i + 1, if c.0.Details? then c.0.ref else None);
    var j := if ReceiverDetails(c) then FirstCreating(rest, c.0.ref, 0) else None;
    if j.Some? {
      Associate(cs[..i], [rest[j.value], c], Reordered(Without(rest, j.value)));
    } else {
      Associate(cs[..i], [c], Reordered(rest));
    }
  }

  lemma HeadStep(c: Planned, rest: seq<Planned>)
    ensures var j := if ReceiverDetails(c) then FirstCreating(rest, c.0.ref, 0) else None;
            Reordered([c] + rest) == if j.Some? then [rest[j.value], c] + Reordered(Without(rest, j.value))
                                     else [c] + Reordered(rest)
  {
    assert ([c] + rest)[0] == c && ([c] + rest)[1..] == rest;
  }

  method FindCreating(cs: seq<Planned>, k: nat, n: Option<nat>) returns (found: Option<nat>)
    requires k <= |cs|
    ensures found == FirstCreating(cs, n, k)
  {
    for j := k to |cs|
      invariant FirstCreating(cs, n, k) == FirstCreating(cs, n, j)
    {
      if Creates(cs[j], n) { return Some(j); }
    }
    found := None;
  }

  lemma {:induction false} ShiftedIndex(cs: seq<Planned>, k: nat, n: Option<nat>, m: nat)
    requires k + m <= |cs|
    ensures var a, b := FirstCreating(cs, n, k + m), FirstCreating(cs[k..], n, m);
            if a.Some? then b == Some(a.value - k) else b.None?
    decreases |cs| - m
  {
    if k + m == |cs| {
    } else {
      ShiftedIndex(cs, k, n, m + 1);
    }
  }

  lemma TailIndex(cs: seq<Planned>, k: nat, n: Option<nat>)
    requires k <= |cs|
    ensures var a, b := FirstCreating(cs, n, k), FirstCreating(cs[k..], n, 0);
            if a.Some? then b == Some(a.value - k) else b.None?
  {
    ShiftedIndex(cs, k, n, 0);
  }

  // -------------------------------------------------------------- what it does

  function Pick<T>(x: T, p: T -> bool): seq<T> {
    if p(x) then [x] else []
  }

  function Where<T>(s: seq<T>, p: T -> bool): seq<T> {
    if s == [] then [] else Pick(s[0], p) + Where(s[1..], p)
  }

  lemma Associate<T>(a: seq<T>, b: seq<T>, c: seq<T>)
    ensures a + (b + c) == a + b + c
  {}

  lemma WhereCons<T>(x: T, s: seq<T>, p: T -> bool)
    ensures Where([x] + s, p) == Pick(x, p) + Where(s, p)
  {
    assert ([x] + s)[1..] == s;
  }

  lemma {:induction false} WhereConcat<T>(a: seq<T>, b: seq<T>, p: T -> bool)
    ensures Where(a + b, p) == Where(a, p) + Where(b, p)
  {
    if a == [] {
      assert a + b == b;
    } else {
      var x, rest := a[0], a[1..];
      assert a == [x] + rest;
      Associate([x], rest, b);
      WhereCons(x, rest, p);
      WhereCons(x, rest + b, p);
      WhereConcat(rest, b, p);
      Associate(Pick(x, p), Where(rest, p), Where(b, p));
    }
  }

  lemma {:induction false} WhereNone<T>(s: seq<T>, p: T -> bool)
    requires forall i :: 0 <= i < |s| ==> !p(s[i])
    ensures Where(s, p) == []
  {
    if s == [] {
    } else {
      WhereNone(s[1..], p);
    }
  }

  lemma Exchange<T>(a: seq<T>, b: seq<T>, c: seq<T>)
    requires a == [] || b == []
    ensures a + (b + c) == b + (a + c)
  {}

  /** Moving x over a keeps the selection when x is not selected, or nothing
      in a is. */
  lemma WhereMoved<T>(a: seq<T>, x: T, b: seq<T>, p: T -> bool)
    requires p(x) ==> forall i :: 0 <= i < |a| ==> !p(a[i])
    ensures Where(a + ([x] + b), p) == Pick(x, p) + Where(a + b, p)
  {
    WhereConcat(a, [x] + b, p);
    WhereCons(x, b, p);
    WhereConcat(a, b, p);
    if p(x) { WhereNone(a, p); }
    Exchange(Where(a, p), Pick(x, p), Where(b, p));
  }

  function Steady(): Planned -> bool {
    (c: Planned) => !c.0.Counterparty?
  }

  function Creating(n: Option<nat>): Planned -> bool {
    (c: Planned) => Creates(c, n)
  }

  /** The plan keeps its selection by p, when p never picks the moved command
      out of order. */
  lemma {:induction false} SelectionKept(cs: seq<Planned>, p: Planned -> bool)
    requires p == Steady() || exists n :: p == Creating(n)
    ensures Where(Reordered(cs), p) == Where(cs, p)
    decreases |cs|
  {
    if cs == [] {
    } else {
      var c, rest := cs[0], cs[1..];
      var j := if ReceiverDetails(c) then FirstCreating(rest, c.0.ref, 0) else None;
      assert cs == [c] + rest;
      if j.Some? {
        SelectionKept(Without(rest, j.value), p);
        PairKept(c, rest, j.value, Reordered(Without(rest, j.value)), p);
      } else {
        SelectionKept(rest, p);
        WhereCons(c, Reordered(rest), p);
        WhereCons(c, rest, p);
      }
    }
  }

  /** c is receiver details and rest[j] a counterparty, so no selection holds
      both; and no selection holds another counterparty of the request before j. */
  lemma PairKept(c: Planned, rest: seq<Planned>, j: nat, out: seq<Planned>, p: Planned -> bool)
    requires p == Steady() || exists n :: p == Creating(n)
    requires ReceiverDetails(c) && FirstCreating(rest, c.0.ref, 0) == Some(j)
    requires Where(out, p) == Where(Without(rest, j), p)
    ensures Where([rest[j], c] + out, p) == Where([c] + rest, p)
  {
    var moved := rest[j];
    NotBoth(moved, c, rest, j, p);
    WherePair(moved, c, out, p);
    PickedFirst(rest, j, p);
    WhereCons(c, rest, p);
  }

  lemma SplitAt<T>(s: seq<T>, j: nat)
    requires j < |s|
    ensures s == s[..j] + ([s[j]] + s[j + 1..])
  {}

  lemma PickedFirst(s: seq<Planned>, j: nat, p: Planned -> bool)
    requires j < |s| && (p(s[j]) ==> forall i :: 0 <= i < j ==> !p(s[i]))
    ensures Where(s, p) == Pick(s[j], p) + Where(Without(s, j), p)
  {
    SplitAt(s, j);
    WhereMoved(s[..j], s[j], s[j + 1..], p);
  }

  lemma NotBoth(moved: Planned, c: Planned, rest: seq<Planned>, j: nat, p: Planned -> bool)
    requires p == Steady() || exists n :: p == Creating(n)
    requires ReceiverDetails(c) && FirstCreating(rest, c.0.ref, 0) == Some(j) && moved == rest[j]
    ensures !(p(moved) && p(c))
    ensures p(moved) ==> forall i :: 0 <= i < j ==> !p(rest[i])
  {}

  lemma WherePair<T>(x: T, y: T, s: seq<T>, p: T -> bool)
    requires !(p(x) && p(y))
    ensures Where([x, y] + s, p) == Pick(y, p) + (Pick(x, p) + Where(s, p))
  {
    assert [x, y] + s == [x] + ([y] + s);
    WhereCons(x, [y] + s, p);
    WhereCons(y, s, p);
    Exchange(Pick(x, p), Pick(y, p), Where(s, p));
  }

  lemma SameElements(s: seq<Planned>, j: nat)
    requires j < |s|
    ensures multiset(s) == multiset{s[j]} + multiset(Without(s, j))
  {
    assert s == s[..j] + [s[j]] + s[j + 1..];
  }

  /** A permutation in which everything but the counterparty commands keeps its
      order, and the counterparty commands of one request keep theirs. */
  lemma {:induction false} ReorderedIsPermutation(cs: seq<Planned>)
    ensures multiset(Reordered(cs)) == multiset(cs)
    decreases |cs|
  {
    if cs == [] {
    } else {
      var c, rest := cs[0], cs[1..];
      var j := if ReceiverDetails(c) then FirstCreating(rest, c.0.ref, 0) else None;
      assert cs == [c] + rest;
      if j.Some? {
        ReorderedIsPermutation(Without(rest, j.value));
        SameElements(rest, j.value);
      } else {
        ReorderedIsPermutation(rest);
      }
    }
  }

  lemma OrderKept(cs: seq<Planned>, n: Option<nat>)
    ensures Where(Reordered(cs), Steady()) == Where(cs, Steady())
    ensures Where(Reordered(cs), Creating(n)) == Where(cs, Creating(n))
  {
    SelectionKept(cs, Steady());
    SelectionKept(cs, Creating(n));
  }

  predicate CreatedBefore(cs: seq<Planned>, n: Option<nat>, k: nat) {
    exists j :: 0 <= j < k && j < |cs| && Creates(cs[j], n)
  }

  /** Every receiver-details command whose request has a counterparty command
      anywhere in the plan comes after one. */
  predicate Satisfied(cs: seq<Planned>) {
    forall k :: 0 <= k < |cs| && ReceiverDetails(cs[k]) && CreatedBefore(cs, cs[k].0.ref, |cs|) ==>
      CreatedBefore(cs, cs[k].0.ref, k)
  }

  lemma SameCreations(a: seq<Planned>, b: seq<Planned>, n: Option<nat>)
    requires multiset(a) == multiset(b)
    ensures CreatedBefore(a, n, |a|) <==> CreatedBefore(b, n, |b|)
  {
    if CreatedBefore(a, n, |a|) {
      var j :| 0 <= j < |a| && Creates(a[j], n);
      assert a[j] in multiset(b);
      var i :| 0 <= i < |b| && b[i] == a[j];
    }
    if CreatedBefore(b, n, |b|) {
      var j :| 0 <= j < |b| && Creates(b[j], n);
      assert b[j] in multiset(a);
      var i :| 0 <= i < |a| && a[i] == b[j];
    }
  }

  lemma {:induction false} ReorderedIsSatisfied(cs: seq<Planned>)
    ensures Satisfied(Reordered(cs))
    decreases |cs|
  {
    if cs == [] {
    } else {
      var c, rest := cs[0], cs[1..];
      var j := if ReceiverDetails(c) then FirstCreating(rest, c.0.ref, 0) else None;
      if j.Some? {
        var left := Without(rest, j.value);
        ReorderedIsSatisfied(left);
        PrependedPair(rest[j.value], c, Reordered(left));
      } else {
        ReorderedIsSatisfied(rest);
        ReorderedIsPermutation(rest);
        if ReceiverDetails(c) {
          SameCreations(Reordered(rest), rest, c.0.ref);
          assert !CreatedBefore(rest, c.0.ref, |rest|);
        }
        Prepended(c, Reordered(rest));
      }
    }
  }

  lemma Prepended(c: Planned, cs: seq<Planned>)
    requires Satisfied(cs) && (ReceiverDetails(c) ==> !CreatedBefore(cs, c.0.ref, |cs|))
    ensures Satisfied([c] + cs)
  {
    var all := [c] + cs;
    forall k | 0 <= k < |all| && ReceiverDetails(all[k]) && CreatedBefore(all, all[k].0.ref, |all|)
      ensures CreatedBefore(all, all[k].0.ref, k)
    {
      var j :| 0 <= j < |all| && Creates(all[j], all[k].0.ref);
      if j >= k {
        assert cs[j - 1] == all[j];
        assert CreatedBefore(cs, all[k].0.ref, |cs|);
        assert k > 0 && CreatedBefore(cs, cs[k - 1].0.ref, k - 1);
        var i :| 0 <= i < k - 1 && Creates(cs[i], cs[k - 1].0.ref);
        assert all[i + 1] == cs[i];
      }
    }
  }

  lemma PrependedPair(moved: Planned, c: Planned, cs: seq<Planned>)
    requires Satisfied(cs) && ReceiverDetails(c) && Creates(moved, c.0.ref)
    ensures Satisfied([moved, c] + cs)
  {
    var all := [moved, c] + cs;
    forall k | 0 <= k < |all| && ReceiverDetails(all[k]) && CreatedBefore(all, all[k].0.ref, |all|)
      ensures CreatedBefore(all, all[k].0.ref, k)
    {
      assert Creates(all[0], c.0.ref);
      if k >= 2 && all[k].0.ref != c.0.ref {
        var j :| 0 <= j < |all| && Creates(all[j], all[k].0.ref);
        assert cs[j - 2] == all[j];
        assert CreatedBefore(cs, all[k].0.ref, |cs|) && CreatedBefore(cs, cs[k - 2].0.ref, k - 2);
        var i :| 0 <= i < k - 2 && Creates(cs[i], cs[k - 2].0.ref);
        assert all[i + 2] == cs[i];
      }
    }
  }

  /** No receiver details has a counterparty command of its request after it. */
  predicate Tidy(cs: seq<Planned>) {
    forall i, j :: 0 <= i < j < |cs| && ReceiverDetails(cs[i]) ==> !Creates(cs[j], cs[i].0.ref)
  }

  /** The plan is left alone exactly when it is tidy. */
  lemma {:induction false} UnchangedExactlyWhenTidy(cs: seq<Planned>)
    ensures Reordered(cs) == cs <==> Tidy(cs)
    decreases |cs|
  {
    if cs == [] {
    } else {
      var c, rest := cs[0], cs[1..];
      var j := if ReceiverDetails(c) then FirstCreating(rest, c.0.ref, 0) else None;
      if j.Some? {
        assert Reordered(cs)[0] != c;
        assert Creates(cs[j.value + 1], c.0.ref);
      } else {
        UnchangedExactlyWhenTidy(rest);
        assert cs == [c] + rest;
        assert Reordered(cs)[1..] == Reordered(rest);
        assert Tidy(cs) <==> Tidy(rest);
      }
    }
  }

  /** A satisfied plan need not be tidy: a second counterparty command is moved
      in front of details that had one already. */
  lemma SatisfiedMayStillChange(a: Planned, d: Planned, b: Planned)
    requires ReceiverDetails(d) && Creates(a, d.0.ref) && Creates(b, d.0.ref)
    ensures Satisfied([a, d, b]) && Reordered([a, d, b]) == [a, b, d]
  {
    var cs := [a, d, b];
    assert Creates(cs[0], d.0.ref);
    assert cs[1..] == [d, b] && [d, b][1..] == [b];
    assert FirstCreating([b], d.0.ref, 0) == Some(0);
    assert Without([b], 0) == [];
    assert Reordered([d, b]) == [b, d];
  }

  // -------------------------------------------------------- which command moves where

  /** d states the details of the receiver of a request. */
  predicate StatesReceiver(d: Planned) {
    d.0.Details? && d.0.role == Some(Receiver)
  }

  predicate Links(y: Planned, n: Option<nat>) {
    y.0.Counterparty? && y.0.ref == n
  }

  predicate NoneLinks(cs: seq<Planned>, n: Option<nat>) {
    forall i :: 0 <= i < |cs| ==> !Links(cs[i], n)
  }

  lemma FirstAfter(m: seq<Planned>, y: Planned, b: seq<Planned>, n: Option<nat>)
    requires NoneLinks(m, n) && Links(y, n)
    ensures FirstCreating(m + ([y] + b), n, 0) == Some(|m|)
  {
    var cs := m + ([y] + b);
    assert cs[|m|] == y && forall i :: 0 <= i < |m| ==> cs[i] == m[i];
    var j := FirstCreating(cs, n, 0);
    assert Creates(cs[|m|], n);
    forall i | 0 <= i < |m| ensures !Creates(cs[i], n) { assert !Links(m[i], n); }
    assert j.Some? && j.value <= |m|;
  }

  lemma CutOut(m: seq<Planned>, y: Planned, b: seq<Planned>)
    ensures Without(m + ([y] + b), |m|) == m + b
  {}

  /** A receiver's details pull the next counterparty command of their request right
      in front of them; everything between keeps its place behind them. */
  lemma PullsExactly(d: Planned, m: seq<Planned>, y: Planned, b: seq<Planned>)
    requires StatesReceiver(d) && NoneLinks(m, d.0.ref) && Links(y, d.0.ref)
    ensures Reordered([d] + (m + ([y] + b))) == [y, d] + Reordered(m + b)
  {
    FirstAfter(m, y, b, d.0.ref);
    CutOut(m, y, b);
    HeadStep(d, m + ([y] + b));
    assert (m + ([y] + b))[|m|] == y;
  }

  lemma NoneAfter(cs: seq<Planned>, n: Option<nat>)
    requires NoneLinks(cs, n)
    ensures FirstCreating(cs, n, 0).None?
  {
    forall i | 0 <= i < |cs| ensures !Creates(cs[i], n) { assert !Links(cs[i], n); }
  }

  /** Any other command stays where it is: one that states no receiver's details,
      or whose request nobody links later in the plan. */
  lemma {:induction false} StaysExactly(a: seq<Planned>, b: seq<Planned>)
    requires forall i :: 0 <= i < |a| ==> !StatesReceiver(a[i]) || NoneLinks((a + b)[i + 1..], a[i].0.ref)
    ensures Reordered(a + b) == a + Reordered(b)
  {
    if a == [] {
      assert a + b == b;
    } else {
      var c, rest := a[0], a[1..];
      assert a == [c] + rest;
      Associate([c], rest, b);
      assert (a + b)[1..] == rest + b;
      if StatesReceiver(c) { NoneAfter(rest + b, c.0.ref); }
      HeadStep(c, rest + b);
      forall i | 0 <= i < |rest| ensures !StatesReceiver(rest[i]) || NoneLinks((rest + b)[i + 1..], rest[i].0.ref) {
        assert (a + b)[i + 2..] == (rest + b)[i + 1..] && rest[i] == a[i + 1];
      }
      StaysExactly(rest, b);
      Associate([c], rest, Reordered(b));
    }
  }
}
