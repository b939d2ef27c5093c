/** Python's `sorted(xs, key=...)` on integer keys: a stable insertion sort. */
module Sorting {

  predicate SortedBy<T>(xs: seq<T>, key: T -> int) {
    forall i, j :: 0 <= i < j < |xs| ==> key(xs[i]) <= key(xs[j])
  }

  /** Inserts `x` behind every element whose key does not exceed its own. */
  function InsertBy<T>(xs: seq<T>, x: T, key: T -> int): (r: seq<T>)
    ensures |r| == |xs| + 1
  {
    if xs == [] || key(xs[|xs|-1]) <= key(x) then xs + [x]
    else InsertBy(xs[..|xs|-1], x, key) + [xs[|xs|-1]]
  }

  function SortBy<T>(xs: seq<T>, key: T -> int): (r: seq<T>)
    ensures |r| == |xs|
  {
    if xs == [] then [] else InsertBy(SortBy(xs[..|xs|-1], key), xs[|xs|-1], key)
  }

  lemma {:induction false} InsertByCorrect<T>(xs: seq<T>, x: T, key: T -> int)
    requires SortedBy(xs, key)
    ensures SortedBy(InsertBy(xs, x, key), key)
    ensures multiset(InsertBy(xs, x, key)) == multiset(xs) + multiset{x}
    decreases |xs|
  {
    if !(xs == [] || key(xs[|xs|-1]) <= key(x)) {
      var n := |xs| - 1;
      InsertByCorrect(xs[..n], x, key);
      var r := InsertBy(xs[..n], x, key);
      assert xs == xs[..n] + [xs[n]];
      forall i | 0 <= i < |r| ensures key(r[i]) <= key(xs[n]) {
        assert r[i] in multiset(r);
        assert r[i] in multiset(xs[..n]) || r[i] == x;
        if r[i] in multiset(xs[..n]) {
          assert r[i] in xs[..n];
        }
      }
    }
  }

  lemma {:induction false} SortByCorrect<T>(xs: seq<T>, key: T -> int)
    ensures SortedBy(SortBy(xs, key), key)
    ensures multiset(SortBy(xs, key)) == multiset(xs)
    decreases |xs|
  {
    if xs != [] {
      var n := |xs| - 1;
      SortByCorrect(xs[..n], key);
      InsertByCorrect(SortBy(xs[..n], key), xs[n], key);
      assert xs == xs[..n] + [xs[n]];
    }
  }

  lemma SortByBounded<T>(xs: seq<T>, key: T -> int, top: int)
    requires forall x <- xs :: key(x) <= top
    ensures forall x <- SortBy(xs, key) :: key(x) <= top
  {
    SortByCorrect(xs, key);
    forall x <- SortBy(xs, key) ensures key(x) <= top {
      assert x in multiset(SortBy(xs, key));
    }
  }

  /** Stability at the top: elements that carry the largest key and come last stay last, in their order. */
  lemma {:induction false} SortByKeepsTail<T>(xs: seq<T>, tail: seq<T>, key: T -> int, top: int)
    requires forall x <- xs :: key(x) <= top
    requires forall x <- tail :: key(x) == top
    ensures SortBy(xs + tail, key) == SortBy(xs, key) + tail
    decreases |tail|
  {
    if tail == [] {
      assert xs + tail == xs;
    } else {
      var last := tail[|tail|-1];
      var front := xs + tail[..|tail|-1];
      assert xs + tail == front + [last];
      SortByKeepsTail(xs, tail[..|tail|-1], key, top);
      SortByBounded(front, key, top);
      SortBySnoc(front, last, key);
    }
  }

  lemma SortBySnoc<T>(front: seq<T>, last: T, key: T -> int)
    requires forall x <- SortBy(front, key) :: key(x) <= key(last)
    ensures SortBy(front + [last], key) == SortBy(front, key) + [last]
  {
    assert (front + [last])[..|front|] == front;
  }

  /** How many elements have a key below `bound`. */
  function CountBelow<T>(xs: seq<T>, key: T -> int, bound: int): nat {
    if xs == [] then 0 else CountBelow(xs[..|xs|-1], key, bound) + if key(xs[|xs|-1]) < bound then 1 else 0
  }

  lemma {:induction false} CountBelowInsert<T>(xs: seq<T>, x: T, key: T -> int, bound: int)
    ensures CountBelow(InsertBy(xs, x, key), key, bound) == CountBelow(xs, key, bound) + if key(x) < bound then 1 else 0
    decreases |xs|
  {
    if xs == [] || key(xs[|xs|-1]) <= key(x) {
      assert (xs + [x])[..|xs|] == xs;
    } else {
      var r := InsertBy(xs[..|xs|-1], x, key);
      CountBelowInsert(xs[..|xs|-1], x, key, bound);
      assert (r + [xs[|xs|-1]])[..|r|] == r;
    }
  }

  lemma {:induction false} CountBelowSort<T>(xs: seq<T>, key: T -> int, bound: int)
    ensures CountBelow(SortBy(xs, key), key, bound) == CountBelow(xs, key, bound)
    decreases |xs|
  {
    if xs != [] {
      CountBelowSort(xs[..|xs|-1], key, bound);
      CountBelowInsert(SortBy(xs[..|xs|-1], key), xs[|xs|-1], key, bound);
    }
  }

  /** In a sorted sequence the elements below the bound are exactly the first `CountBelow` ones. */
  lemma {:induction false} SortedPrefixBelow<T>(xs: seq<T>, key: T -> int, bound: int)
    requires SortedBy(xs, key)
    ensures CountBelow(xs, key, bound) <= |xs|
    ensures forall i :: 0 <= i < |xs| ==> (key(xs[i]) < bound <==> i < CountBelow(xs, key, bound))
    decreases |xs|
  {
    if xs != [] {
      SortedPrefixBelow(xs[..|xs|-1], key, bound);
    }
  }

  lemma TwiceMeansTwo<T>(ys: seq<T>, i: nat, j: nat)
    requires i < j < |ys| && ys[i] == ys[j]
    ensures multiset(ys)[ys[i]] >= 2
  {
    assert ys == ys[..j] + ys[j..];
    assert ys[i] in ys[..j] && ys[j] in ys[j..];
  }
}
