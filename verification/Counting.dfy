/** Counting the elements of a sequence that satisfy a predicate. */
module Counting {

  function Indices<T(!new)>(s: seq<T>, p: T -> bool): set<nat> {
    set k: nat | k < |s| && p(s[k])
  }

  function Count<T(!new)>(s: seq<T>, p: T -> bool): nat {
    |Indices(s, p)|
  }

  lemma CountSnoc<T(!new)>(s: seq<T>, x: T, p: T -> bool)
    ensures Count(s + [x], p) == Count(s, p) + (if p(x) then 1 else 0)
  {
    assert Indices(s + [x], p) == Indices(s, p) + if p(x) then {|s|} else {};
  }

  /** Replacing one element moves the count by that element alone. */
  lemma CountUpdate<T(!new)>(s: seq<T>, i: nat, x: T, p: T -> bool)
    requires i < |s|
    ensures Count(s[i := x], p) == Count(s, p) - (if p(s[i]) then 1 else 0) + (if p(x) then 1 else 0)
  {
    var rest := Indices(s, p) - {i};
    assert Indices(s, p) == rest + if p(s[i]) then {i} else {};
    assert Indices(s[i := x], p) == rest + if p(x) then {i} else {};
  }

  lemma CountNone<T(!new)>(s: seq<T>, p: T -> bool)
    requires forall i :: 0 <= i < |s| ==> !p(s[i])
    ensures Count(s, p) == 0
  {
    assert Indices(s, p) == {};
  }

  /** What a stronger predicate counts is no more. */
  lemma CountFewer<T(!new)>(s: seq<T>, p: T -> bool, q: T -> bool)
    requires forall i :: 0 <= i < |s| && p(s[i]) ==> q(s[i])
    ensures Count(s, p) <= Count(s, q)
  {
    var more := Indices(s, q) - Indices(s, p);
    assert Indices(s, q) == Indices(s, p) + more;
  }

  /** Something is counted exactly when some element satisfies the predicate. */
  lemma CountPositive<T(!new)>(s: seq<T>, p: T -> bool)
    ensures Count(s, p) > 0 <==> exists i :: 0 <= i < |s| && p(s[i])
  {
    if i :| 0 <= i < |s| && p(s[i]) {
      assert i in Indices(s, p);
    } else {
      CountNone(s, p);
    }
  }
}
