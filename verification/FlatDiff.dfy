/** The trees from which the printed diff tells all targets apart. */
module FlatDiff {
  import opened Domain
  import opened TreeDiff
  import opened PrintedDiff

  /** No child is compared child by child. */
  predicate Flat(a: Json) {
    Keyed(a) ==> forall k <- Children(a) :: !Keyed(Children(a)[k])
  }

  // ---- a flat tree tells its targets apart ----

  predicate SameKind(a: Json, b: Json) {
    Keyed(a) && Keyed(b) && a.Obj? == b.Obj?
  }

  /** The changes concern children of the tree, and what they replace is a proper part of it. */
  predicate Shallow(a: Json, changes: seq<Change>) {
    forall ch <- changes :: |ch.path| == 1 && (ch.path[0].Key? <==> a.Obj?) && (ch.Changed? ==> ch.old_ != a)
  }

  lemma ChildIsShallow(a: Json, b: Json, name: string)
    requires SameKind(a, b) && Flat(a)
    ensures Shallow(a, DiffChild(a, b, name, []))
  {
    assert [] + [Seg(a, name)] == [Seg(a, name)];
    if name in Children(a) {
      assert Children(a)[name] < a;
    }
  }

  lemma {:induction false} ChildrenAreShallow(a: Json, b: Json, names: seq<string>)
    requires SameKind(a, b) && Flat(a)
    ensures Shallow(a, DiffChildren(a, b, names, []))
    decreases |names|
  {
    hide DiffChild, Flat, Children;
    if names != [] {
      ChildrenAreShallow(a, b, names[..|names|-1]);
      ChildIsShallow(a, b, names[|names|-1]);
    }
  }

  lemma RenderOneSegment(s: Segment)
    ensures Render([s]) == match s case Key(k) => k case Item(k) => "[" + k + "]"
  {
    RenderFurther([], s);
    assert [] + [s] == [s];
  }

  lemma SegmentReadBack(s: Segment, s': Segment)
    requires s.Key? == s'.Key? && Render([s]) == Render([s'])
    ensures s == s'
  {
    RenderOneSegment(s);
    RenderOneSegment(s');
    if s.Item? {
      assert Render([s])[1..|Render([s])|-1] == s.name && Render([s'])[1..|Render([s'])|-1] == s'.name;
    }
  }

  lemma ShallowReadBack(a: Json, xs: seq<Change>, ys: seq<Change>)
    requires Shallow(a, xs) && Shallow(a, ys) && RenderAll(xs) == RenderAll(ys)
    ensures xs == ys
  {
    hide Render;
    assert |xs| == |RenderAll(xs)| == |ys|;
    forall i | 0 <= i < |xs| ensures xs[i] == ys[i] {
      assert xs[i] in xs && ys[i] in ys;
      assert RenderChange(xs[i]) == RenderAll(xs)[i] == RenderChange(ys[i]);
      assert xs[i].path == [xs[i].path[0]] && ys[i].path == [ys[i].path[0]];
      SegmentReadBack(xs[i].path[0], ys[i].path[0]);
    }
  }

  /** Equal changes lead to equal targets. */
  lemma SameChanges(a: Json, b: Json, b': Json)
    requires Diff(a, b, []) == Diff(a, b', [])
    ensures CanonOf(b) == CanonOf(b')
  {
    hide Diff, CanonOf, Replay;
    ReplayYieldsTarget(a, b, []);
    ReplayYieldsTarget(a, b', []);
  }

  lemma OtherKindDiff(a: Json, b: Json)
    requires !SameKind(a, b)
    ensures Diff(a, b, []) == if CanonOf(a) == CanonOf(b) then [] else [Changed([], a, b)]
  {
    DifferentKinds(a, b);
  }

  lemma OneOfOtherKind(a: Json, b: Json, b': Json)
    requires Flat(a) && SameKind(a, b) && !SameKind(a, b') && RenderAll(Diff(a, b, [])) == RenderAll(Diff(a, b', []))
    ensures CanonOf(b) == CanonOf(b')
  {
    hide CanonOf, Flat, Keyed, Render;
    OtherKindDiff(a, b');
    ChildrenAreShallow(a, b, Names(a, b));
    var xs, ys := Diff(a, b, []), Diff(a, b', []);
    assert xs == DiffChildren(a, b, Names(a, b), []);
    hide Diff, DiffChildren;
    NoLineReplacesAll(a, xs, b');
    assert |xs| == |RenderAll(xs)| == |ys|;
    SameChanges(a, b, b');
  }

  lemma NoLineReplacesAll(a: Json, xs: seq<Change>, b: Json)
    requires Shallow(a, xs)
    ensures RenderAll(xs) != RenderAll([Changed([], a, b)])
  {
    var whole: Change := Changed([], a, b);
    assert RenderAll([whole])[0] == RenderChange(whole) && |RenderAll([whole])| == 1;
    if |xs| == 1 {
      assert xs[0] in xs && RenderAll(xs)[0] == RenderChange(xs[0]);
    }
  }

  lemma FlatTellsApart(a: Json, b: Json, b': Json)
    requires Flat(a) && RenderAll(Diff(a, b, [])) == RenderAll(Diff(a, b', []))
    ensures CanonOf(b) == CanonOf(b')
  {
    hide CanonOf, Flat, Keyed, Render;
    if SameKind(a, b) && SameKind(a, b') {
      ChildrenAreShallow(a, b, Names(a, b));
      ChildrenAreShallow(a, b', Names(a, b'));
      ShallowReadBack(a, Diff(a, b, []), Diff(a, b', []));
      SameChanges(a, b, b');
    } else if SameKind(a, b) {
      OneOfOtherKind(a, b, b');
    } else if SameKind(a, b') {
      OneOfOtherKind(a, b', b);
    } else {
      OtherKinds(a, b, b');
    }
  }

  lemma OtherKinds(a: Json, b: Json, b': Json)
    requires !SameKind(a, b) && !SameKind(a, b') && RenderAll(Diff(a, b, [])) == RenderAll(Diff(a, b', []))
    ensures CanonOf(b) == CanonOf(b')
  {
    OtherKindDiff(a, b);
    OtherKindDiff(a, b');
    hide Diff, CanonOf, SameKind, Render;
    var xs, ys := Diff(a, b, []), Diff(a, b', []);
    assert |xs| == |RenderAll(xs)| == |ys|;
    if xs != [] {
      assert RenderAll(xs)[0] == RenderChange(xs[0]) && RenderAll(ys)[0] == RenderChange(ys[0]);
    }
  }

  // ---- any other tree does not ----

  /** A name longer than every given one. */
  lemma FreshName(names: set<string>) returns (r: string)
    ensures r != "" && forall s <- names :: |s| < |r|
    decreases |names|
  {
    r := "x";
    if names != {} {
      var s :| s in names;
      r := FreshName(names - {s});
      if |r| <= |s| {
        r := s + "x";
      }
    }
  }

  /** One change is printed like another one that leads elsewhere. */
  lemma PrintedAlike(a: Json, b: Json, b': Json, p: seq<Segment>, p': seq<Segment>, v: Json)
    requires Diff(a, b, []) == [Added(p, v)] && Diff(a, b', []) == [Added(p', v)] && Render(p) == Render(p')
    requires CanonOf(b) != CanonOf(b')
    ensures Collide(a, b, b')
  {
    hide Diff, CanonOf, Render;
    CollideBy(a, b, b', Added(p, v), Added(p', v));
  }

  lemma MoreChildren(a: Json, b: Json, b': Json, k: string)
    requires SameKind(a, b) && SameKind(a, b') && Children(b).Keys == Children(a).Keys
    requires k !in Children(a) && k in Children(b')
    ensures CanonOf(b) != CanonOf(b')
  {
    assert k in CanonOf(b').children && k !in CanonOf(b).children;
  }

  lemma ChildInBoth(a: Json, b: Json, u: string)
    requires Keyed(a) && Keyed(b) && u in Children(a) && u in Children(b)
    ensures DiffChild(a, b, u, []) == Diff(Children(a)[u], Children(b)[u], [Seg(a, u)])
  {
    hide Diff, Children, Keyed, Seg;
    assert [] + [Seg(a, u)] == [Seg(a, u)];
  }

  /** A child gets a child of its own. */
  lemma GrandchildAdded(a: Json, b: Json, u: string, k: string)
    requires SameKind(a, b) && u in Children(a) && u in Children(b)
    requires Children(b) == Children(a)[u := Children(b)[u]]
    requires var (x, y) := (Children(a)[u], Children(b)[u]);
      && SameKind(x, y) && k !in Children(x) && k in Children(y)
      && Children(y) == Children(x)[k := Children(y)[k]]
    ensures var (x, y) := (Children(a)[u], Children(b)[u]);
      Diff(a, b, []) == [Added([Seg(a, u), Seg(x, k)], Children(y)[k])]
  {
    hide Diff, DiffChild, Children, Keyed, Seg;
    var x, y := Children(a)[u], Children(b)[u];
    OneChildDiffers(a, b, u, []);
    ChildInBoth(a, b, u);
    ChildAdded(x, y, k, [Seg(a, u)]);
    assert [Seg(a, u)] + [Seg(x, k)] == [Seg(a, u), Seg(x, k)];
  }

  /** An object in an object: its new field is printed like a new field beside it. */
  lemma NestedObjectCollides(a: Json, u: string) returns (b: Json, b': Json)
    requires a.Obj? && u in a.fields && a.fields[u].Obj?
    ensures Collide(a, b, b')
  {
    hide Diff, CanonOf, Render, Collide;
    var x := a.fields[u];
    var v := FreshName(a.fields.Keys + x.fields.Keys);
    var k := if u == "" then v else u + "." + v;
    assert |k| >= |v|;
    b, b' := Obj(a.fields[u := Obj(x.fields[v := Null])]), Obj(a.fields[k := Null]);
    GrandchildAdded(a, b, u, v);
    ChildAdded(a, b', k, []);
    assert [] + [Key(k)] == [Key(k)];
    MoreChildren(a, b, b', k);
    RenderKeys(u, v);
    RenderKeys(k, v);
    PrintedAlike(a, b, b', [Key(u), Key(v)], [Key(k)], Null);
  }

  /** The list with one more item. */
  lemma ItemAppended(xs: seq<Json>, x: Json)
    requires IdKeyed(xs) && HasId(x)
    ensures IdKeyed(xs + [x]) && ById(xs + [x]) == ById(xs)[IdOf(x) := x]
  {
    assert (xs + [x])[..|xs|] == xs;
  }

  lemma RenderItemBelow(u: string, i: string)
    ensures Render([Key(u), Item(i)]) == u + "[" + i + "]"
  {
    RenderKeys(u, "");
    RenderFurther([Key(u)], Item(i));
    assert [Key(u)] + [Item(i)] == [Key(u), Item(i)];
  }

  /** A list by id in an object: its new item is printed like a new field beside it. */
  lemma NestedListCollides(a: Json, u: string) returns (b: Json, b': Json)
    requires a.Obj? && u in a.fields && a.fields[u].List? && Keyed(a.fields[u])
    ensures Collide(a, b, b')
  {
    hide Diff, CanonOf, Render, Collide;
    var xs := a.fields[u].items;
    var i := FreshName(a.fields.Keys + ById(xs).Keys);
    var k := u + "[" + i + "]";
    assert |k| >= |i|;
    ItemAppended(xs, Bare(i));
    b, b' := Obj(a.fields[u := List(xs + [Bare(i)])]), Obj(a.fields[k := Bare(i)]);
    GrandchildAdded(a, b, u, i);
    ChildAdded(a, b', k, []);
    assert [] + [Key(k)] == [Key(k)];
    MoreChildren(a, b, b', k);
    RenderItemBelow(u, i);
    RenderKeys(k, "");
    PrintedAlike(a, b, b', [Key(u), Item(i)], [Key(k)], Bare(i));
  }

  lemma RenderBrokenId(u: string, w: string)
    ensures Render([Item(u), Key(w + "]")]) == Render([Item(u + "]." + w)])
  {
    hide Render;
    RenderItems(u, w + "]");
    RenderItems(u + "]." + w, "");
    assert "[" + u + "]" + "." + (w + "]") == "[" + (u + "]." + w) + "]";
  }

  lemma FieldAdded(x: Json, k: string, v: Json)
    requires HasId(x) && k !in x.fields
    ensures var y := Obj(x.fields[k := v]); HasId(y) && IdOf(y) == IdOf(x)
  {}

  /** An item of a list: its new field is printed like a new item. */
  lemma ListCollides(a: Json, u: string) returns (b: Json, b': Json)
    requires a.List? && Keyed(a) && u in ById(a.items)
    ensures Collide(a, b, b')
  {
    hide Diff, CanonOf, Render, Collide, HasId, IdOf, IdKeyed, Bare;
    ItemIsObject(a.items, u);
    var x := ById(a.items)[u];
    var w := FreshName(ById(a.items).Keys + x.fields.Keys);
    var i, k := u + "]." + w, w + "]";
    assert |i| >= |w| && |k| >= |w|;
    BareHasId(i);
    FieldAdded(x, k, Bare(i));
    var y := Obj(x.fields[k := Bare(i)]);
    ItemAppended(a.items, y);
    ItemAppended(a.items, Bare(i));
    b, b' := List(a.items + [y]), List(a.items + [Bare(i)]);
    GrandchildAdded(a, b, u, k);
    ChildAdded(a, b', i, []);
    assert [] + [Item(i)] == [Item(i)];
    MoreChildren(a, b, b', i);
    RenderBrokenId(u, w);
    PrintedAlike(a, b, b', [Item(u), Key(k)], [Item(i)], Bare(i));
  }

  lemma BareHasId(i: string)
    ensures HasId(Bare(i)) && IdOf(Bare(i)) == i
  {}

  lemma ItemIsObject(xs: seq<Json>, u: string)
    requires IdKeyed(xs) && u in ById(xs)
    ensures HasId(ById(xs)[u]) && IdOf(ById(xs)[u]) == u && ById(xs)[u].Obj?
  {}

  /** The printed diff from a tree tells all targets apart, up to the order of id-keyed lists, exactly if no child of
      the tree is compared child by child. */
  lemma TellsTargetsApartIff(a: Json)
    ensures Flat(a) <==> forall b, b' :: !Collide(a, b, b')
  {
    hide Diff, CanonOf;
    if Flat(a) {
      forall b, b' ensures !Collide(a, b, b') {
        if RenderAll(Diff(a, b, [])) == RenderAll(Diff(a, b', [])) {
          FlatTellsApart(a, b, b');
        }
      }
    } else {
      var u :| u in Children(a) && Keyed(Children(a)[u]);
      if a.List? {
        var b, b' := ListCollides(a, u);
      } else if a.fields[u].Obj? {
        var b, b' := NestedObjectCollides(a, u);
      } else {
        var b, b' := NestedListCollides(a, u);
      }
    }
  }
}
