/** Counting the elements of a sequence that satisfy a condition, the way
    `sum(1 for x in xs if cond(x))` does. */
module Counting {

  /** How many elements satisfy `p`, counted one element at a time. */
  function Count<T>(s: seq<T>, p: T -> bool): (n: nat)
    ensures n <= |s|
  {
    if s == [] then 0 else Count(s[..|s| - 1], p) + (if p(s[|s| - 1]) then 1 else 0)
  }

  /** The positions whose element satisfies `p`. */
  function Indices<T>(s: seq<T>, p: T -> bool): set<int> {
    set i | 0 <= i < |s| && p(s[i])
  }

  /** The count is the number of distinct positions that satisfy `p`: no
      element is counted twice and none is missed. */
  lemma {:induction false} CountIsIndexCount<T>(s: seq<T>, p: T -> bool)
    ensures Count(s, p) == |Indices(s, p)|
  {
    if s != [] {
      var n := |s| - 1;
      CountIsIndexCount(s[..n], p);
      assert Indices(s, p) == Indices(s[..n], p) + (if p(s[n]) then {n} else {});
    }
  }

  /** Two conditions that never hold together count at most the length. */
  lemma {:induction false} CountDisjoint<T>(s: seq<T>, p: T -> bool, q: T -> bool)
    requires forall i :: 0 <= i < |s| ==> !(p(s[i]) && q(s[i]))
    ensures Count(s, p) + Count(s, q) <= |s|
  {
    if s != [] {
      var n := |s| - 1;
      CountDisjoint(s[..n], p, q);
    }
  }

  /** Only the elements matter: a condition no element satisfies counts 0. */
  lemma {:induction false} CountNone<T>(s: seq<T>, p: T -> bool)
    requires forall i :: 0 <= i < |s| ==> !p(s[i])
    ensures Count(s, p) == 0
  {
    if s != [] {
      CountNone(s[..|s| - 1], p);
    }
  }

  /** Appending one element adds one to the count exactly when it satisfies `p`. */
  lemma CountAppend<T>(s: seq<T>, x: T, p: T -> bool)
    ensures Count(s + [x], p) == Count(s, p) + (if p(x) then 1 else 0)
  {
    assert (s + [x])[..|s|] == s;
  }
}
