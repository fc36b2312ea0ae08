/**
 * `Array.prototype.sort` with a numeric comparator `(a, b) => key(a) - key(b)`.
 * The ECMAScript sort is stable, so the result is determined: ascending by key,
 * and elements with equal keys keep their input order. Modelled as an insertion
 * sort that inserts each element after every element whose key is not larger.
 */
module Sorting {

  /** Ascending by `key`. */
  ghost predicate SortedBy<T>(s: seq<T>, key: T -> int) {
    forall i, j :: 0 <= i < j < |s| ==> key(s[i]) <= key(s[j])
  }

  /** The elements of `s` whose key is `k`, in their order in `s`. */
  function WithKey<T>(s: seq<T>, key: T -> int, k: int): seq<T> {
    if s == [] then []
    else WithKey(s[..|s| - 1], key, k) + (if key(s[|s| - 1]) == k then [s[|s| - 1]] else [])
  }

  lemma {:induction false} WithKeyAppend<T>(a: seq<T>, b: seq<T>, key: T -> int, k: int)
    ensures WithKey(a + b, key, k) == WithKey(a, key, k) + WithKey(b, key, k)
  {
    if b != [] {
      assert (a + b)[..|a + b| - 1] == a + b[..|b| - 1];
      WithKeyAppend(a, b[..|b| - 1], key, k);
    } else {
      assert a + b == a;
    }
  }

  /** The key filter of `t + [y]` extends that of `t` by `y` exactly when `y` has the key. */
  lemma WithKeySnoc<T>(t: seq<T>, y: T, key: T -> int, k: int)
    ensures WithKey(t + [y], key, k) == WithKey(t, key, k) + (if key(y) == k then [y] else [])
  {
    assert (t + [y])[..|t|] == t;
  }

  /** A rearrangement of `s` and `x` has no key above a bound that all of them keep. */
  lemma BoundedByElements<T>(r: seq<T>, s: seq<T>, x: T, key: T -> int, b: int)
    requires multiset(r) == multiset(s) + multiset{x}
    requires key(x) <= b && forall i :: 0 <= i < |s| ==> key(s[i]) <= b
    ensures forall i :: 0 <= i < |r| ==> key(r[i]) <= b
  {
    forall i | 0 <= i < |r| ensures key(r[i]) <= b {
      assert r[i] in multiset(r);
      if r[i] != x {
        assert r[i] in multiset(s);
      }
    }
  }

  /** Puts `x` into sorted `s` after every element whose key is at most `key(x)`. */
  function Insert<T>(x: T, s: seq<T>, key: T -> int): (r: seq<T>)
    requires SortedBy(s, key)
    ensures SortedBy(r, key)
    ensures multiset(r) == multiset(s) + multiset{x}
    ensures |r| == |s| + 1
  {
    if s == [] || key(s[|s| - 1]) <= key(x) then s + [x]
    else
      var init := s[..|s| - 1];
      var r0 := Insert(x, init, key);
      assert s == init + [s[|s| - 1]];
      BoundedByElements(r0, init, x, key, key(s[|s| - 1]));
      r0 + [s[|s| - 1]]
  }

  /** The stable sort of `xs` by `key`. */
  function SortBy<T>(xs: seq<T>, key: T -> int): (r: seq<T>)
    ensures SortedBy(r, key)
    ensures multiset(r) == multiset(xs)
    ensures |r| == |xs|
  {
    if xs == [] then []
    else
      var r := Insert(xs[|xs| - 1], SortBy(xs[..|xs| - 1], key), key);
      assert xs == xs[..|xs| - 1] + [xs[|xs| - 1]];
      r
  }

  /** Inserting `x` puts it after every element of equal key already there. */
  lemma {:induction false} InsertKeepsTies<T>(x: T, s: seq<T>, key: T -> int, k: int)
    requires SortedBy(s, key)
    ensures WithKey(Insert(x, s, key), key, k)
         == WithKey(s, key, k) + (if key(x) == k then [x] else [])
  {
    if s == [] || key(s[|s| - 1]) <= key(x) {
      WithKeySnoc(s, x, key, k);
    } else {
      var init := s[..|s| - 1];
      var last := s[|s| - 1];
      var r := Insert(x, init, key);
      assert Insert(x, s, key) == r + [last];
      assert s == init + [last];
      InsertKeepsTies(x, init, key, k);
      WithKeySnoc(r, last, key, k);
      WithKeySnoc(init, last, key, k);
    }
  }

  /** Stability: for every key value, the elements with that key appear in the same order. */
  lemma {:induction false} SortByStable<T>(xs: seq<T>, key: T -> int, k: int)
    ensures WithKey(SortBy(xs, key), key, k) == WithKey(xs, key, k)
  {
    if xs != [] {
      var init, last := xs[..|xs| - 1], xs[|xs| - 1];
      assert xs == init + [last];
      calc {
        WithKey(SortBy(xs, key), key, k);
        WithKey(Insert(last, SortBy(init, key), key), key, k);
        == { InsertKeepsTies(last, SortBy(init, key), key, k); }
        WithKey(SortBy(init, key), key, k) + (if key(last) == k then [last] else []);
        == { SortByStable(init, key, k); }
        WithKey(init, key, k) + (if key(last) == k then [last] else []);
        == { WithKeySnoc(init, last, key, k); }
        WithKey(xs, key, k);
      }
    }
  }

  /** Input already in ascending key order is returned unchanged. */
  lemma {:induction false} SortBySorted<T>(xs: seq<T>, key: T -> int)
    requires SortedBy(xs, key)
    ensures SortBy(xs, key) == xs
  {
    if xs != [] {
      var init := xs[..|xs| - 1];
      assert SortedBy(init, key);
      SortBySorted(init, key);
    }
  }
}
