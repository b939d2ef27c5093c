/** Lexicographic order on strings, sorted lists and the sorted list of a set. */
module Order {

  predicate Le(a: string, b: string) {
    a == [] || (b != [] && (a[0] < b[0] || (a[0] == b[0] && Le(a[1..], b[1..]))))
  }

  lemma {:induction false} LeReflexive(a: string)
    ensures Le(a, a)
  {
    if a != [] {
      LeReflexive(a[1..]);
    }
  }

  lemma {:induction false} LeTotal(a: string, b: string)
    ensures Le(a, b) || Le(b, a)
  {
    if a != [] && b != [] {
      LeTotal(a[1..], b[1..]);
    }
  }

  lemma {:induction false} LeAntisymmetric(a: string, b: string)
    requires Le(a, b) && Le(b, a)
    ensures a == b
  {
    if a != [] {
      LeAntisymmetric(a[1..], b[1..]);
      assert a == [a[0]] + a[1..] && b == [b[0]] + b[1..];
    }
  }

  lemma {:induction false} LeTransitive(a: string, b: string, c: string)
    requires Le(a, b) && Le(b, c)
    ensures Le(a, c)
  {
    if a != [] && a[0] == b[0] && b[0] == c[0] {
      LeTransitive(a[1..], b[1..], c[1..]);
    }
  }

  predicate Sorted(xs: seq<string>) {
    forall i, j :: 0 <= i < j < |xs| ==> Le(xs[i], xs[j])
  }

  predicate NoDuplicates(xs: seq<string>) {
    forall i, j :: 0 <= i < j < |xs| ==> xs[i] != xs[j]
  }

  /** Inserts `x` behind every element that is not above it. */
  function Insert(xs: seq<string>, x: string): seq<string> {
    if xs == [] || Le(xs[|xs|-1], x) then xs + [x] else Insert(xs[..|xs|-1], x) + [xs[|xs|-1]]
  }

  /** Python's `sorted` on a list of strings. */
  function Sort(xs: seq<string>): seq<string> {
    if xs == [] then [] else Insert(Sort(xs[..|xs|-1]), xs[|xs|-1])
  }

  lemma {:induction false} InsertCorrect(xs: seq<string>, x: string)
    requires Sorted(xs)
    ensures Sorted(Insert(xs, x))
    ensures forall y :: y in Insert(xs, x) <==> y in xs || y == x
    ensures NoDuplicates(xs) && x !in xs ==> NoDuplicates(Insert(xs, x))
    decreases |xs|
  {
    if xs == [] {
    } else if Le(xs[|xs|-1], x) {
      forall i | 0 <= i < |xs| ensures Le(xs[i], x) {
        LeReflexive(xs[i]);
        LeTransitive(xs[i], xs[|xs|-1], x);
      }
    } else {
      var n := |xs| - 1;
      var last := xs[n];
      assert xs == xs[..n] + [last];
      InsertCorrect(xs[..n], x);
      LeTotal(last, x);
      var r := Insert(xs[..n], x);
      forall i | 0 <= i < |r| ensures Le(r[i], last) {
        assert r[i] in r;
      }
      forall i | 0 <= i < |r| && NoDuplicates(xs) && x !in xs ensures r[i] != last {
        assert r[i] in r;
      }
    }
  }

  lemma {:induction false} SortCorrect(xs: seq<string>)
    ensures Sorted(Sort(xs))
    ensures forall y :: y in Sort(xs) <==> y in xs
    ensures NoDuplicates(xs) ==> NoDuplicates(Sort(xs))
  {
    if xs != [] {
      var n := |xs| - 1;
      SortCorrect(xs[..n]);
      InsertCorrect(Sort(xs[..n]), xs[n]);
      assert xs == xs[..n] + [xs[n]];
    }
  }

  lemma {:induction false} SortOfSorted(xs: seq<string>)
    requires Sorted(xs)
    ensures Sort(xs) == xs
  {
    if xs != [] {
      var n := |xs| - 1;
      SortOfSorted(xs[..n]);
      assert xs == xs[..n] + [xs[n]];
      if n > 0 {
        assert Le(xs[..n][n-1], xs[n]);
      }
    }
  }

  lemma EmptyOrMember(ys: seq<string>)
    ensures ys == [] || exists y :: y in ys
  {
    if ys != [] {
      assert ys[0] in ys;
    }
  }

  /** Two sorted lists without duplicates and with the same members are equal. */
  lemma {:induction false} SortedUnique(xs: seq<string>, ys: seq<string>)
    requires Sorted(xs) && Sorted(ys) && NoDuplicates(xs) && NoDuplicates(ys)
    requires forall z :: z in xs <==> z in ys
    ensures xs == ys
    decreases |xs|
  {
    if xs == [] {
      EmptyOrMember(ys);
    } else {
      assert xs[0] in ys;
      var i :| 0 <= i < |ys| && ys[i] == xs[0];
      assert ys[0] in xs;
      var j :| 0 <= j < |xs| && xs[j] == ys[0];
      if i > 0 && j > 0 {
        LeAntisymmetric(xs[0], ys[0]);
      }
      assert xs[0] == ys[0];
      assert xs == [xs[0]] + xs[1..] && ys == [ys[0]] + ys[1..];
      forall z ensures z in xs[1..] <==> z in ys[1..] {
        assert z in xs[1..] <==> z in xs && z != xs[0];
        assert z in ys[1..] <==> z in ys && z != ys[0];
      }
      SortedUnique(xs[1..], ys[1..]);
    }
  }

  lemma {:induction false} HasLeast(s: set<string>)
    requires s != {}
    ensures exists x :: x in s && forall y <- s :: Le(x, y)
    decreases |s|
  {
    var z :| z in s;
    LeReflexive(z);
    if s != {z} {
      var rest := s - {z};
      assert s == rest + {z};
      HasLeast(rest);
      var m :| m in rest && forall y <- rest :: Le(m, y);
      LeTotal(m, z);
      if Le(m, z) {
        assert forall y <- s :: Le(m, y);
      } else {
        forall y <- s ensures Le(z, y) {
          if y != z { LeTransitive(z, m, y); }
        }
      }
    }
  }

  /** `sorted(s)` for a set. */
  function SortedSet(s: set<string>): (r: seq<string>)
    ensures Sorted(r) && NoDuplicates(r) && (forall x :: x in r <==> x in s)
  {
    if s == {} then []
    else
      HasLeast(s);
      LeastUnique(s);
      var x :| x in s && forall y <- s :: Le(x, y);
      var rest := SortedSet(s - {x});
      LeastFirst(x, rest, s);
      [x] + rest
  }

  lemma LeastFirst(x: string, rest: seq<string>, s: set<string>)
    requires x in s && (forall y <- s :: Le(x, y))
    requires Sorted(rest) && NoDuplicates(rest) && forall y :: y in rest <==> y in s - {x}
    ensures Sorted([x] + rest) && NoDuplicates([x] + rest) && forall y :: y in [x] + rest <==> y in s
  {
    hide Le;
    assert forall i :: 0 <= i < |rest| ==> rest[i] in rest;
  }

  lemma LeastUnique(s: set<string>)
    ensures forall x, y :: x in s && y in s && (forall z <- s :: Le(x, z)) && (forall z <- s :: Le(y, z)) ==> x == y
  {
    forall x, y | x in s && y in s && (forall z <- s :: Le(x, z)) && (forall z <- s :: Le(y, z)) ensures x == y {
      LeAntisymmetric(x, y);
    }
  }
}
