/**
 * Python's `sorted(xs, key=key, reverse=True)`: a stable sort by descending
 * key. Elements with equal keys keep their original order.
 */
module Sorting {

  predicate SortedDesc<T>(s: seq<T>, key: T -> real) {
    forall i, j :: 0 <= i < j < |s| ==> key(s[i]) >= key(s[j])
  }

  /** Puts `x` before the first element whose key is not above its own. */
  function InsertDesc<T>(x: T, s: seq<T>, key: T -> real): (r: seq<T>)
    ensures |r| == |s| + 1
    decreases |s|
  {
    if s == [] then [x]
    else if key(s[0]) > key(x) then [s[0]] + InsertDesc(x, s[1..], key)
    else [x] + s
  }

  /** Insertion sort from the back. */
  function SortDesc<T>(s: seq<T>, key: T -> real): (r: seq<T>)
    ensures |r| == |s|
    decreases |s|
  {
    if s == [] then [] else InsertDesc(s[0], SortDesc(s[1..], key), key)
  }

  /** `f` applied to every element, in order. */
  function Image<T, U>(s: seq<T>, f: T -> U): (r: seq<U>)
    ensures |r| == |s| && forall i :: 0 <= i < |s| ==> r[i] == f(s[i])
  {
    seq(|s|, i requires 0 <= i < |s| => f(s[i]))
  }

  lemma ImageCons<T, U>(x: T, s: seq<T>, f: T -> U)
    ensures Image([x] + s, f) == [f(x)] + Image(s, f)
  {
  }

  lemma {:induction false} InsertDescImage<T, U>(x: T, s: seq<T>, key: T -> real, f: T -> U)
    ensures multiset(Image(InsertDesc(x, s, key), f)) == multiset(Image(s, f)) + multiset{f(x)}
    decreases |s|
  {
    if s == [] {
      assert Image([x], f) == [f(x)];
    } else if key(s[0]) > key(x) {
      InsertDescImage(x, s[1..], key, f);
      ImageCons(s[0], InsertDesc(x, s[1..], key), f);
      ImageCons(s[0], s[1..], f);
      assert [s[0]] + s[1..] == s;
    } else {
      ImageCons(x, s, f);
    }
  }

  /** The sort is a permutation: whatever is read off the elements, the same values come out, as often. */
  lemma {:induction false} SortDescImage<T, U>(s: seq<T>, key: T -> real, f: T -> U)
    ensures multiset(Image(SortDesc(s, key), f)) == multiset(Image(s, f))
    decreases |s|
  {
    if s != [] {
      SortDescImage(s[1..], key, f);
      InsertDescImage(s[0], SortDesc(s[1..], key), key, f);
      ImageCons(s[0], s[1..], f);
      assert [s[0]] + s[1..] == s;
    }
  }

  lemma {:induction false} InsertDescPermutes<T>(x: T, s: seq<T>, key: T -> real)
    ensures multiset(InsertDesc(x, s, key)) == multiset(s) + multiset{x}
    decreases |s|
  {
    if s != [] && key(s[0]) > key(x) {
      InsertDescPermutes(x, s[1..], key);
      assert s == [s[0]] + s[1..];
    }
  }

  /** The sort is a permutation of its input. */
  lemma {:induction false} SortDescPermutes<T>(s: seq<T>, key: T -> real)
    ensures multiset(SortDesc(s, key)) == multiset(s)
    decreases |s|
  {
    if s != [] {
      SortDescPermutes(s[1..], key);
      InsertDescPermutes(s[0], SortDesc(s[1..], key), key);
      assert s == [s[0]] + s[1..];
    }
  }

  /** Every element of the sorted list is an element of the input. */
  lemma SortDescMember<T>(s: seq<T>, key: T -> real, x: T)
    requires x in SortDesc(s, key)
    ensures x in s
  {
    SortDescPermutes(s, key);
    assert x in multiset(SortDesc(s, key));
  }

  /** Inserting below a bound keeps every key below it. */
  lemma {:induction false} InsertDescBounded<T>(x: T, s: seq<T>, key: T -> real, bound: real)
    requires key(x) <= bound
    requires forall k :: 0 <= k < |s| ==> key(s[k]) <= bound
    ensures forall k :: 0 <= k < |s| + 1 ==> key(InsertDesc(x, s, key)[k]) <= bound
    decreases |s|
  {
    if s != [] && key(s[0]) > key(x) {
      InsertDescBounded(x, s[1..], key, bound);
    }
  }

  lemma {:induction false} InsertDescSorted<T>(x: T, s: seq<T>, key: T -> real)
    requires SortedDesc(s, key)
    ensures SortedDesc(InsertDesc(x, s, key), key)
    decreases |s|
  {
    if s != [] && key(s[0]) > key(x) {
      var rest := InsertDesc(x, s[1..], key);
      InsertDescSorted(x, s[1..], key);
      InsertDescBounded(x, s[1..], key, key(s[0]));
      assert InsertDesc(x, s, key) == [s[0]] + rest;
    }
  }

  /** The sort orders by non-increasing key. */
  lemma {:induction false} SortDescSorted<T>(s: seq<T>, key: T -> real)
    ensures SortedDesc(SortDesc(s, key), key)
    decreases |s|
  {
    if s != [] {
      SortDescSorted(s[1..], key);
      InsertDescSorted(s[0], SortDesc(s[1..], key), key);
    }
  }

  /** The elements of `s` whose key is exactly `c`, in order. */
  function WithKey<T>(s: seq<T>, key: T -> real, c: real): (r: seq<T>)
    ensures |r| <= |s|
    decreases |s|
  {
    if s == [] then [] else (if key(s[0]) == c then [s[0]] else []) + WithKey(s[1..], key, c)
  }

  lemma WithKeyCons<T>(y: T, s: seq<T>, key: T -> real, c: real)
    ensures WithKey([y] + s, key, c) == (if key(y) == c then [y] else []) + WithKey(s, key, c)
  {
    assert ([y] + s)[0] == y && ([y] + s)[1..] == s;
  }

  lemma {:induction false} InsertDescStable<T>(x: T, s: seq<T>, key: T -> real, c: real)
    ensures WithKey(InsertDesc(x, s, key), key, c) == (if key(x) == c then [x] else []) + WithKey(s, key, c)
    decreases |s|
  {
    var mine := if key(x) == c then [x] else [];
    if s == [] {
      assert WithKey([x], key, c) == mine;
      assert mine + WithKey(s, key, c) == mine;
    } else if key(s[0]) > key(x) {
      var head := if key(s[0]) == c then [s[0]] else [];
      var tail := WithKey(s[1..], key, c);
      InsertDescStable(x, s[1..], key, c);
      WithKeyCons(s[0], InsertDesc(x, s[1..], key), key, c);
      assert WithKey(InsertDesc(x, s, key), key, c) == head + (mine + tail);
      assert WithKey(s, key, c) == head + tail;
      SwapEmpty(head, mine, tail);
    } else {
      WithKeyCons(x, s, key, c);
    }
  }

  /** Two prefixes, one of them empty, can be swapped. */
  lemma SwapEmpty<T>(a: seq<T>, b: seq<T>, t: seq<T>)
    requires a == [] || b == []
    ensures a + (b + t) == b + (a + t)
  {
    if a == [] {
      assert a + (b + t) == b + t;
      assert a + t == t;
    } else {
      assert b + t == t;
      assert b + (a + t) == a + t;
    }
  }

  /** Stability: the elements of any one key come out in their original order. */
  lemma {:induction false} SortDescStable<T>(s: seq<T>, key: T -> real, c: real)
    ensures WithKey(SortDesc(s, key), key, c) == WithKey(s, key, c)
    decreases |s|
  {
    if s != [] {
      SortDescStable(s[1..], key, c);
      InsertDescStable(s[0], SortDesc(s[1..], key), key, c);
    }
  }
}
