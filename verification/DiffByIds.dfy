/** What an empty diff says about the items of two lists that are compared by id. */
module DiffByIds {
  import opened Domain
  import opened TreeDiff

  /** An item with the same id that agrees up to the order of id-keyed lists. */
  predicate Partner(x: Json, y: Json) {
    HasId(x) && HasId(y) && IdOf(x) == IdOf(y) && CanonOf(x) == CanonOf(y)
  }

  predicate Partnered(xs: seq<Json>, ys: seq<Json>) {
    forall x <- xs :: exists y <- ys :: Partner(x, y)
  }

  /** No item of the list is shadowed by a later one with its id that differs from it. */
  predicate TellsApart(xs: seq<Json>)
    requires IdKeyed(xs)
  {
    forall x <- xs :: CanonOf(ById(xs)[IdOf(x)]) == CanonOf(x)
  }

  lemma SameCanonById(xs: seq<Json>, ys: seq<Json>)
    requires IdKeyed(xs) && IdKeyed(ys)
    ensures CanonOf(List(xs)) == CanonOf(List(ys)) <==>
            ById(xs).Keys == ById(ys).Keys && forall k <- ById(xs) :: CanonOf(ById(xs)[k]) == CanonOf(ById(ys)[k])
  {
    var ca, cb := CanonOf(List(xs)).children, CanonOf(List(ys)).children;
    assert ca.Keys == ById(xs).Keys && cb.Keys == ById(ys).Keys;
    SameMaps(ca.Keys + cb.Keys, ca, cb);
  }

  lemma CanonGivesPartners(xs: seq<Json>, ys: seq<Json>)
    requires IdKeyed(xs) && IdKeyed(ys) && TellsApart(xs) && CanonOf(List(xs)) == CanonOf(List(ys))
    ensures Partnered(xs, ys)
  {
    SameCanonById(xs, ys);
    hide CanonOf;
    forall x | x in xs ensures exists y <- ys :: Partner(x, y) {
      assert Partner(x, ById(ys)[IdOf(x)]);
    }
  }

  lemma PartnersAgreeById(xs: seq<Json>, ys: seq<Json>)
    requires IdKeyed(xs) && IdKeyed(ys) && TellsApart(ys) && Partnered(xs, ys)
    ensures forall k <- ById(xs) :: k in ById(ys) && CanonOf(ById(xs)[k]) == CanonOf(ById(ys)[k])
  {
    hide CanonOf;
    forall k | k in ById(xs) ensures k in ById(ys) && CanonOf(ById(xs)[k]) == CanonOf(ById(ys)[k]) {
      var x := ById(xs)[k];
      var y :| y in ys && Partner(x, y);
    }
  }

  /** Between lists that shadow nothing the diff is empty exactly if every item of either has a partner in the other. */
  lemma ToldApartAgreeIff(xs: seq<Json>, ys: seq<Json>, path: seq<Segment>)
    requires IdKeyed(xs) && IdKeyed(ys) && TellsApart(xs) && TellsApart(ys)
    ensures Diff(List(xs), List(ys), path) == [] <==> Partnered(xs, ys) && Partnered(ys, xs)
  {
    hide CanonOf, ById, TellsApart, Partnered, Diff;
    DiffEmptyIff(List(xs), List(ys), path);
    SameCanonById(xs, ys);
    if Partnered(xs, ys) && Partnered(ys, xs) {
      PartnersAgreeById(xs, ys);
      PartnersAgreeById(ys, xs);
    } else if CanonOf(List(xs)) == CanonOf(List(ys)) {
      CanonGivesPartners(xs, ys);
      CanonGivesPartners(ys, xs);
    }
  }

  /** A list that shadows an item has no difference from any list that keeps the later items only, though one of its
      items has no partner there. */
  lemma ShadowedItemIsOverlooked(xs: seq<Json>, ys: seq<Json>, path: seq<Segment>)
    requires IdKeyed(xs) && IdKeyed(ys) && !TellsApart(xs) && TellsApart(ys) && ById(xs) == ById(ys)
    ensures Diff(List(xs), List(ys), path) == [] && !Partnered(xs, ys)
  {
    hide CanonOf, Diff;
    DiffEmptyIff(List(xs), List(ys), path);
    SameCanonById(xs, ys);
    var x :| x in xs && CanonOf(ById(xs)[IdOf(x)]) != CanonOf(x);
    forall y | y in ys ensures !Partner(x, y) {}
  }

  /** The list without the items that a later one with the same id shadows. */
  function Unshadowed(xs: seq<Json>): seq<Json>
    requires IdKeyed(xs)
  {
    if xs == [] then []
    else
      var n := |xs| - 1;
      assert xs[n] in xs && forall x <- xs[..n] :: x in xs;
      Others(Unshadowed(xs[..n]), IdOf(xs[n])) + [xs[n]]
  }

  /** The items with another id. */
  function Others(xs: seq<Json>, id: string): (r: seq<Json>)
    ensures forall x <- r :: x in xs && !(HasId(x) && IdOf(x) == id)
    ensures forall x <- xs :: x in r || (HasId(x) && IdOf(x) == id)
  {
    if xs == [] then []
    else
      var n := |xs| - 1;
      assert xs == xs[..n] + [xs[n]];
      Others(xs[..n], id) + if HasId(xs[n]) && IdOf(xs[n]) == id then [] else [xs[n]]
  }

  lemma {:induction false} UnshadowedItems(xs: seq<Json>)
    requires IdKeyed(xs)
    ensures IdKeyed(Unshadowed(xs))
    ensures forall x <- Unshadowed(xs) :: IdOf(x) in ById(xs) && x == ById(xs)[IdOf(x)]
    ensures forall k <- ById(xs) :: ById(xs)[k] in Unshadowed(xs)
    decreases |xs|
  {
    if xs != [] {
      var n := |xs| - 1;
      assert xs == xs[..n] + [xs[n]];
      UnshadowedItems(xs[..n]);
    }
  }

  /** Lists whose items are what the ids stand for stand for the same. */
  lemma {:induction false} ByIdOf(ys: seq<Json>, m: Dict)
    requires IdKeyed(ys) && forall y <- ys :: IdOf(y) in m && y == m[IdOf(y)]
    ensures forall k <- ById(ys) :: k in m && ById(ys)[k] == m[k]
  {}

  lemma UnshadowedStandsFor(xs: seq<Json>)
    requires IdKeyed(xs)
    ensures IdKeyed(Unshadowed(xs)) && ById(Unshadowed(xs)) == ById(xs) && TellsApart(Unshadowed(xs))
  {
    UnshadowedItems(xs);
    var ys := Unshadowed(xs);
    ByIdOf(ys, ById(xs));
    SameMap(ById(ys), ById(xs));
    hide CanonOf, Unshadowed;
  }

  lemma SameMap(m: Dict, n: Dict)
    requires (forall k <- m :: k in n && m[k] == n[k]) && forall k <- n :: k in m
    ensures m == n
  {}

  /** An empty diff between a list and another one means that its items have partners there, whatever the other one
      is, exactly if the list shadows nothing. */
  lemma EmptyDiffMeansPartnersIff(xs: seq<Json>, path: seq<Segment>)
    requires IdKeyed(xs)
    ensures TellsApart(xs) <==> forall ys | IdKeyed(ys) :: Diff(List(xs), List(ys), path) == [] ==> Partnered(xs, ys)
  {
    hide CanonOf, Diff, Partnered, TellsApart, ById;
    if TellsApart(xs) {
      forall ys | IdKeyed(ys) && Diff(List(xs), List(ys), path) == [] ensures Partnered(xs, ys) {
        DiffEmptyIff(List(xs), List(ys), path);
        CanonGivesPartners(xs, ys);
      }
    } else {
      UnshadowedStandsFor(xs);
      ShadowedItemIsOverlooked(xs, Unshadowed(xs), path);
    }
  }

  predicate UniqueIds(xs: seq<Json>) {
    (forall i :: 0 <= i < |xs| ==> HasId(xs[i])) && forall i, j :: 0 <= i < j < |xs| ==> IdOf(xs[i]) != IdOf(xs[j])
  }

  lemma UniqueIdsTellApart(xs: seq<Json>)
    requires UniqueIds(xs)
    ensures IdKeyed(xs) && TellsApart(xs)
  {
    forall x | x in xs ensures ById(xs)[IdOf(x)] == x {
      assert ById(xs)[IdOf(x)] in xs;
    }
  }

  /** The smallest case: of two items with one id the earlier is overlooked. */
  lemma RepeatedIdIsOverlooked(path: seq<Segment>)
    ensures var x := Obj(map["id" := Str("a"), "v" := Num(1)]); var y := Obj(map["id" := Str("a"), "v" := Num(2)]);
      && IdKeyed([x, y]) && !TellsApart([x, y])
      && Diff(List([x, y]), List([y]), path) == [] && !Partnered([x, y], [y])
  {
    var x := Obj(map["id" := Str("a"), "v" := Num(1)]);
    var y := Obj(map["id" := Str("a"), "v" := Num(2)]);
    ByIdOfOne(y);
    ByIdOfTwo(x, y);
    assert [x, y][0] in [x, y];
    assert CanonOf(x).children["v"] == Raw(Num(1)) && CanonOf(y).children["v"] == Raw(Num(2));
    hide Diff, CanonOf;
    assert TellsApart([y]);
    ShadowedItemIsOverlooked([x, y], [y], path);
  }
}
