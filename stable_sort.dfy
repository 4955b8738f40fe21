/** Python's `list.sort(key=..., reverse=True)`: a stable sort into
    descending key order, in which elements with equal keys keep the order
    they had before the sort. */
module StableSort {

  /** Keys never increase from left to right. */
  ghost predicate SortedDesc<V>(s: seq<V>, key: V -> int) {
    forall i, j :: 0 <= i < j < |s| ==> key(s[j]) <= key(s[i])
  }

  /** `[x]` if `x` has key `k`, otherwise nothing. */
  function IfKey<V>(x: V, key: V -> int, k: int): seq<V> {
    if key(x) == k then [x] else []
  }

  /** The elements of `s` whose key is `k`, in their order in `s`. */
  function WithKey<V>(s: seq<V>, key: V -> int, k: int): seq<V> {
    if s == [] then [] else IfKey(s[0], key, k) + WithKey(s[1..], key, k)
  }

  /** Puts `x` after every element with a larger key and before the rest. */
  function Insert<V>(x: V, s: seq<V>, key: V -> int): (r: seq<V>)
    ensures multiset(r) == multiset(s) + multiset{x}
  {
    if s == [] || key(s[0]) <= key(x) then [x] + s
    else
      assert s == [s[0]] + s[1..];
      [s[0]] + Insert(x, s[1..], key)
  }

  /** A bound on every key survives inserting an element within it. */
  lemma {:induction false} InsertBounded<V>(x: V, s: seq<V>, key: V -> int, b: int)
    requires key(x) <= b
    requires forall i :: 0 <= i < |s| ==> key(s[i]) <= b
    ensures forall i :: 0 <= i < |Insert(x, s, key)| ==> key(Insert(x, s, key)[i]) <= b
  {
    if s != [] && key(s[0]) > key(x) {
      var rest := Insert(x, s[1..], key);
      InsertBounded(x, s[1..], key, b);
      var r := [s[0]] + rest;
      assert r == Insert(x, s, key);
      forall i | 0 <= i < |r| ensures key(r[i]) <= b {
        if i == 0 {
          assert r[0] == s[0];
        } else {
          assert r[i] == rest[i - 1];
        }
      }
    }
  }

  /** Inserting into a sorted sequence keeps it sorted. */
  lemma {:induction false} InsertSorted<V>(x: V, s: seq<V>, key: V -> int)
    requires SortedDesc(s, key)
    ensures SortedDesc(Insert(x, s, key), key)
  {
    if s != [] && key(s[0]) > key(x) {
      var rest := Insert(x, s[1..], key);
      InsertSorted(x, s[1..], key);
      InsertBounded(x, s[1..], key, key(s[0]));
      var r := [s[0]] + rest;
      assert r == Insert(x, s, key);
      forall i, j | 0 <= i < j < |r| ensures key(r[j]) <= key(r[i]) {
        if i == 0 {
          assert r[0] == s[0] && r[j] == rest[j - 1];
          assert key(rest[j - 1]) <= key(s[0]);
        } else {
          assert r[i] == rest[i - 1] && r[j] == rest[j - 1];
        }
      }
    }
  }

  /** Insertion sort, descending and stable. */
  function SortDesc<V>(s: seq<V>, key: V -> int): (r: seq<V>)
    ensures SortedDesc(r, key)
    ensures multiset(r) == multiset(s)
  {
    if s == [] then []
    else
      assert s == [s[0]] + s[1..];
      var rest := SortDesc(s[1..], key);
      InsertSorted(s[0], rest, key);
      Insert(s[0], rest, key)
  }

  lemma {:induction false} WithKeyConcat<V>(a: seq<V>, b: seq<V>, key: V -> int, k: int)
    ensures WithKey(a + b, key, k) == WithKey(a, key, k) + WithKey(b, key, k)
  {
    if a == [] {
      assert a + b == b;
    } else {
      var h := IfKey(a[0], key, k);
      assert (a + b)[0] == a[0] && (a + b)[1..] == a[1..] + b;
      calc {
        WithKey(a + b, key, k);
        h + WithKey(a[1..] + b, key, k);
        { WithKeyConcat(a[1..], b, key, k); }
        h + (WithKey(a[1..], key, k) + WithKey(b, key, k));
        WithKey(a, key, k) + WithKey(b, key, k);
      }
    }
  }

  lemma WithKeySingle<V>(x: V, key: V -> int, k: int)
    ensures WithKey([x], key, k) == IfKey(x, key, k)
  {
    assert [x][1..] == [];
  }

  /** Inserting `x` adds it in front of the elements with its own key. */
  lemma {:induction false} InsertWithKey<V>(x: V, s: seq<V>, key: V -> int, k: int)
    ensures WithKey(Insert(x, s, key), key, k)
         == IfKey(x, key, k) + WithKey(s, key, k)
  {
    if s == [] || key(s[0]) <= key(x) {
      WithKeySingle(x, key, k);
      WithKeyConcat([x], s, key, k);
    } else {
      InsertWithKey(x, s[1..], key, k);
      InsertPastLarger(x, s, key, k);
    }
  }

  /** The step of InsertWithKey when `x` goes after the first element. */
  lemma InsertPastLarger<V>(x: V, s: seq<V>, key: V -> int, k: int)
    requires s != [] && key(s[0]) > key(x)
    requires WithKey(Insert(x, s[1..], key), key, k)
          == IfKey(x, key, k) + WithKey(s[1..], key, k)
    ensures WithKey(Insert(x, s, key), key, k)
         == IfKey(x, key, k) + WithKey(s, key, k)
  {
    var r := Insert(x, s, key);
    var rest := Insert(x, s[1..], key);
    var head := IfKey(s[0], key, k);
    assert r == [s[0]] + rest;
    assert r[0] == s[0] && r[1..] == rest;
    assert WithKey(r, key, k) == head + WithKey(rest, key, k);
    assert WithKey(s, key, k) == head + WithKey(s[1..], key, k);
    assert head == [] || IfKey(x, key, k) == [];
    Reassociate(WithKey(r, key, k), head, WithKey(rest, key, k), IfKey(x, key, k),
                WithKey(s[1..], key, k), WithKey(s, key, k));
  }

  /** Moving `hx` in front of `head` when one of the two is empty. */
  lemma Reassociate<V>(all: seq<V>, head: seq<V>, inserted: seq<V>, hx: seq<V>, tail: seq<V>, whole: seq<V>)
    requires all == head + inserted && inserted == hx + tail && whole == head + tail
    requires head == [] || hx == []
    ensures all == hx + whole
  {
    if head == [] {
      assert all == inserted && whole == tail;
    } else {
      assert inserted == tail;
    }
  }

  /** Stability: for every key, the elements carrying it appear in the
      result in exactly the order they had in the input. */
  lemma {:induction false} SortDescStable<V>(s: seq<V>, key: V -> int, k: int)
    ensures WithKey(SortDesc(s, key), key, k) == WithKey(s, key, k)
  {
    if s != [] {
      SortDescStable(s[1..], key, k);
      InsertWithKey(s[0], SortDesc(s[1..], key), key, k);
    }
  }
}
