/** The structural diff between two state views. */
module TreeDiff {
  import opened Domain
  import opened Order

  /** A path segment: a key of an object or the id of a list item. */
  datatype Segment = Key(name: string) | Item(name: string)

  datatype Entry<P> =
    | Added(path: P, value: Json)
    | Removed(path: P, value: Json)
    | Changed(path: P, old_: Json, new_: Json)

  type Change = Entry<seq<Segment>>

  predicate HasId(x: Json) {
    x.Obj? && "id" in x.fields && x.fields["id"].Str?
  }

  function IdOf(x: Json): string
    requires HasId(x)
  {
    x.fields["id"].s
  }

  predicate IdKeyed(xs: seq<Json>) {
    forall x <- xs :: HasId(x)
  }

  /** `{x["id"]: x for x in xs}`: of two items with one id the later wins. */
  function ById(xs: seq<Json>): (m: Dict)
    requires IdKeyed(xs)
    ensures forall k <- m :: m[k] in xs && IdOf(m[k]) == k
    ensures forall x <- xs :: IdOf(x) in m
  {
    if xs == [] then map[]
    else
      assert forall x <- xs[..|xs|-1] :: x in xs;
      var last := xs[|xs|-1];
      assert last in xs && xs == xs[..|xs|-1] + [last];
      ById(xs[..|xs|-1])[IdOf(last) := last]
  }

  /** The value Python compares: a boolean equals the number 0 or 1, at any depth. */
  function Norm(j: Json): Json
    decreases j
  {
    match j
    case Bool(b) => Num(if b then 1 else 0)
    case List(items) => List(seq(|items|, i requires 0 <= i < |items| => Norm(items[i])))
    case Obj(fields) => Obj(map k | k in fields :: Norm(fields[k]))
    case _ => j
  }

  /** Trees that are compared child by child: objects, and lists whose items all have an id. */
  predicate Keyed(j: Json) {
    j.Obj? || (j.List? && IdKeyed(j.items))
  }

  function Children(j: Json): (m: Dict)
    requires Keyed(j)
    ensures forall k <- m :: m[k] < j
  {
    if j.Obj? then j.fields
    else
      assert forall k <- ById(j.items) :: ById(j.items)[k] in j.items;
      ById(j.items)
  }

  function Seg(j: Json, name: string): Segment {
    if j.Obj? then Key(name) else Item(name)
  }

  function Names(a: Json, b: Json): seq<string>
    requires Keyed(a) && Keyed(b)
  {
    SortedSet(Children(a).Keys + Children(b).Keys)
  }

  function Diff(a: Json, b: Json, path: seq<Segment>): seq<Change>
    decreases a, 1, 0
  {
    if Keyed(a) && Keyed(b) && a.Obj? == b.Obj? then DiffChildren(a, b, Names(a, b), path)
    else if Norm(a) != Norm(b) then [Changed(path, a, b)]
    else []
  }

  function DiffChildren(a: Json, b: Json, names: seq<string>, path: seq<Segment>): seq<Change>
    requires Keyed(a) && Keyed(b)
    decreases a, 0, |names|
  {
    if names == [] then []
    else
      var n := |names| - 1;
      DiffChildren(a, b, names[..n], path) + DiffChild(a, b, names[n], path)
  }

  function DiffChild(a: Json, b: Json, name: string, path: seq<Segment>): seq<Change>
    requires Keyed(a) && Keyed(b)
    decreases a, 0, 0
  {
    var (am, bm) := (Children(a), Children(b));
    var p := path + [Seg(a, name)];
    if name in am && name in bm then Diff(am[name], bm[name], p)
    else if name in bm then [Added(p, bm[name])]
    else if name in am then [Removed(p, am[name])]
    else []
  }

  // ---- the printed paths ----

  /** The path as the program writes it: the first key stands alone, further keys follow a dot, ids stand in
      brackets. */
  function Render(path: seq<Segment>): string {
    if path == [] then ""
    else
      var before := Render(path[..|path|-1]);
      match path[|path|-1]
      case Key(k) => if before == "" then k else before + "." + k
      case Item(k) => before + "[" + k + "]"
  }

  /** A line of the program's output. */
  type Line = Entry<string>

  function RenderChange(ch: Change): Line {
    match ch
    case Added(p, v) => Added(Render(p), v)
    case Removed(p, v) => Removed(Render(p), v)
    case Changed(p, x, y) => Changed(Render(p), x, y)
  }

  function RenderAll(changes: seq<Change>): (r: seq<Line>)
    ensures |r| == |changes|
    ensures forall i :: 0 <= i < |changes| ==> r[i] == RenderChange(changes[i])
  {
    seq(|changes|, i requires 0 <= i < |changes| => RenderChange(changes[i]))
  }

  lemma RenderMore(xs: seq<Change>, ys: seq<Change>)
    ensures RenderAll(xs + ys) == RenderAll(xs) + RenderAll(ys)
  {}

  lemma RenderFurther(path: seq<Segment>, s: Segment)
    ensures Render(path + [s]) == match s case Key(k) => (if Render(path) == "" then k else Render(path) + "." + k)
                                          case Item(k) => Render(path) + "[" + k + "]"
  {
    assert (path + [s])[..|path|] == path;
  }

  /** `_diff` as written: a list of lines filled level by level, with the path built up as text. */
  method ComputeDiff(a: Json, b: Json, path: string, ghost segments: seq<Segment>) returns (out: seq<Line>)
    requires path == Render(segments)
    ensures out == RenderAll(Diff(a, b, segments))
    decreases a, 1
  {
    out := [];
    if Keyed(a) && Keyed(b) && a.Obj? == b.Obj? {
      var names := Names(a, b);
      for i := 0 to |names|
        invariant out == RenderAll(DiffChildren(a, b, names[..i], segments))
      {
        PrefixOfPrefix(names, i);
        var changes := ComputeChild(a, b, names[i], path, segments);
        RenderMore(DiffChildren(a, b, names[..i], segments), DiffChild(a, b, names[i], segments));
        out := out + changes;
      }
      assert names[..|names|] == names;
    } else if Norm(a) != Norm(b) {
      out := [Changed(path, a, b)];
    }
  }

  lemma PrefixOfPrefix(names: seq<string>, i: nat)
    requires i < |names|
    ensures names[..i+1][..i] == names[..i]
  {}

  method ComputeChild(a: Json, b: Json, name: string, path: string,
                      ghost segments: seq<Segment>) returns (out: seq<Line>)
    requires Keyed(a) && Keyed(b) && path == Render(segments)
    ensures out == RenderAll(DiffChild(a, b, name, segments))
    decreases a, 0
  {
    var am, bm := Children(a), Children(b);
    var p := if !a.Obj? then path + "[" + name + "]" else if path == "" then name else path + "." + name;
    RenderFurther(segments, Seg(a, name));
    if name in am && name in bm {
      out := ComputeDiff(am[name], bm[name], p, segments + [Seg(a, name)]);
    } else if name in bm {
      out := [Added(p, bm[name])];
    } else if name in am {
      out := [Removed(p, am[name])];
    } else {
      out := [];
    }
  }

  // ---- what two trees have in common when the diff is empty ----

  /** A tree up to the order of id-keyed lists: those lists become maps by id, other values what Python compares. */
  datatype Canon = Raw(j: Json) | Tree(isObject: bool, children: map<string, Canon>)

  function CanonOf(j: Json): Canon
    decreases j
  {
    if Keyed(j) then
      var m := Children(j);
      Tree(j.Obj?, map k | k in m :: CanonOf(m[k]))
    else Raw(Norm(j))
  }

  lemma {:induction false} NormKeepsIdKeyed(a: Json, b: Json)
    requires a.List? && b.List? && Norm(a) == Norm(b)
    ensures IdKeyed(a.items) <==> IdKeyed(b.items)
  {
    assert |Norm(a).items| == |a.items| && |Norm(b).items| == |b.items|;
    forall i | 0 <= i < |a.items| ensures HasId(a.items[i]) <==> HasId(b.items[i]) {
      assert Norm(a).items[i] == Norm(a.items[i]) && Norm(b).items[i] == Norm(b.items[i]);
      NormKeepsId(a.items[i]);
      NormKeepsId(b.items[i]);
    }
  }

  lemma NormKeepsId(x: Json)
    ensures HasId(Norm(x)) <==> HasId(x)
  {}

  /** Trees of different kinds differ, whatever the diff compares them by. */
  lemma DifferentKinds(a: Json, b: Json)
    requires !(Keyed(a) && Keyed(b) && a.Obj? == b.Obj?)
    ensures Norm(a) == Norm(b) <==> CanonOf(a) == CanonOf(b)
  {
    if Norm(a) == Norm(b) && a.List? && b.List? {
      NormKeepsIdKeyed(a, b);
    }
  }

  /** The diff is empty exactly when the trees agree up to the order of their id-keyed lists. */
  lemma {:induction false} DiffEmptyIff(a: Json, b: Json, path: seq<Segment>)
    ensures Diff(a, b, path) == [] <==> CanonOf(a) == CanonOf(b)
    decreases a, 1, 0
  {
    if Keyed(a) && Keyed(b) && a.Obj? == b.Obj? {
      DiffChildrenEmptyIff(a, b, Names(a, b), path);
      SameChildrenSameCanon(a, b);
    } else {
      DifferentKinds(a, b);
    }
  }

  lemma SameChildrenSameCanon(a: Json, b: Json)
    requires Keyed(a) && Keyed(b) && a.Obj? == b.Obj?
    ensures (forall k <- Names(a, b) :: SameChild(a, b, k)) <==> CanonOf(a) == CanonOf(b)
  {
    SameMaps(Children(a).Keys + Children(b).Keys, CanonOf(a).children, CanonOf(b).children);
    forall k <- Names(a, b)
      ensures SameChild(a, b, k) <==> SameAt(CanonOf(a).children, CanonOf(b).children, k)
    {}
  }

  predicate SameAt(m: map<string, Canon>, n: map<string, Canon>, k: string) {
    k in m && k in n && m[k] == n[k]
  }

  lemma SameMaps(keys: set<string>, m: map<string, Canon>, n: map<string, Canon>)
    requires keys == m.Keys + n.Keys
    ensures (forall k <- keys :: SameAt(m, n, k)) <==> m == n
  {
    if forall k <- keys :: SameAt(m, n, k) {
      assert m.Keys == n.Keys by {
        assert forall k <- keys :: k in m && k in n;
      }
    }
  }

  predicate SameChild(a: Json, b: Json, name: string)
    requires Keyed(a) && Keyed(b)
  {
    name in Children(a) && name in Children(b) && CanonOf(Children(a)[name]) == CanonOf(Children(b)[name])
  }

  lemma {:induction false} DiffChildrenEmptyIff(a: Json, b: Json, names: seq<string>, path: seq<Segment>)
    requires Keyed(a) && Keyed(b) && forall k <- names :: k in Children(a) || k in Children(b)
    ensures DiffChildren(a, b, names, path) == [] <==> forall k <- names :: SameChild(a, b, k)
    decreases a, 0, |names|
  {
    if names != [] {
      var n := |names| - 1;
      assert names == names[..n] + [names[n]];
      assert names[n] in names;
      DiffChildrenEmptyIff(a, b, names[..n], path);
      if names[n] in Children(a) && names[n] in Children(b) {
        DiffEmptyIff(Children(a)[names[n]], Children(b)[names[n]], path + [Seg(a, names[n])]);
      }
    }
  }

  // ---- replay ----

  /** Applies one change to a tree that sits `depth` segments down its path. */
  function Play(c: Canon, ch: Change, depth: nat): Canon
    decreases |ch.path| - depth
  {
    if depth >= |ch.path| then (if ch.Changed? then CanonOf(ch.new_) else c)
    else if c.Raw? then c
    else
      var name := ch.path[depth].name;
      if depth + 1 == |ch.path| && ch.Added? then c.(children := c.children[name := CanonOf(ch.value)])
      else if depth + 1 == |ch.path| && ch.Removed? then c.(children := c.children - {name})
      else if name in c.children then c.(children := c.children[name := Play(c.children[name], ch, depth + 1)])
      else c
  }

  function Replay(c: Canon, changes: seq<Change>, depth: nat): Canon {
    if changes == [] then c else Play(Replay(c, changes[..|changes|-1], depth), changes[|changes|-1], depth)
  }

  lemma {:induction false} ReplayAppend(c: Canon, xs: seq<Change>, ys: seq<Change>, depth: nat)
    ensures Replay(c, xs + ys, depth) == Replay(Replay(c, xs, depth), ys, depth)
    decreases |ys|
  {
    if ys == [] {
      assert xs + ys == xs;
    } else {
      assert (xs + ys)[..|xs + ys| - 1] == xs + ys[..|ys|-1];
      ReplayAppend(c, xs, ys[..|ys|-1], depth);
    }
  }

  /** Changes that lie strictly below, or replace, the child `name` of a tree at `depth`. */
  predicate InChild(changes: seq<Change>, name: string, depth: nat) {
    forall ch <- changes :: |ch.path| > depth && ch.path[depth].name == name && (ch.Changed? || |ch.path| > depth + 1)
  }

  lemma {:induction false} ReplayInChild(c: Canon, changes: seq<Change>, name: string, depth: nat)
    requires c.Tree? && name in c.children && InChild(changes, name, depth)
    ensures Replay(c, changes, depth)
      == c.(children := c.children[name := Replay(c.children[name], changes, depth + 1)])
    decreases |changes|
  {
    if changes == [] {
      assert c.children[name := c.children[name]] == c.children;
    } else {
      assert forall ch <- changes[..|changes|-1] :: ch in changes;
      ReplayInChild(c, changes[..|changes|-1], name, depth);
      var before := Replay(c.children[name], changes[..|changes|-1], depth + 1);
      var after := Replay(c.children[name], changes, depth + 1);
      assert c.children[name := before][name := after] == c.children[name := after];
    }
  }

  lemma {:induction false} DiffExtendsPath(a: Json, b: Json, path: seq<Segment>)
    ensures forall ch <- Diff(a, b, path) :: path <= ch.path && (ch.Changed? || |ch.path| > |path|)
    decreases a, 1, 0
  {
    if Keyed(a) && Keyed(b) && a.Obj? == b.Obj? {
      DiffChildrenExtendPath(a, b, Names(a, b), path);
    }
  }

  lemma {:induction false} DiffChildrenExtendPath(a: Json, b: Json, names: seq<string>, path: seq<Segment>)
    requires Keyed(a) && Keyed(b)
    ensures forall ch <- DiffChildren(a, b, names, path) :: path <= ch.path && |ch.path| > |path|
    decreases a, 0, |names|
  {
    if names != [] {
      var n := |names| - 1;
      DiffChildrenExtendPath(a, b, names[..n], path);
      if names[n] in Children(a) && names[n] in Children(b) {
        DiffExtendsPath(Children(a)[names[n]], Children(b)[names[n]], path + [Seg(a, names[n])]);
      }
    }
  }

  /** Replaying the diff of two trees on the first one yields the second, up to the order of id-keyed lists. */
  lemma {:induction false} ReplayYieldsTarget(a: Json, b: Json, path: seq<Segment>)
    ensures Replay(CanonOf(a), Diff(a, b, path), |path|) == CanonOf(b)
    decreases a, 1, 0
  {
    if Keyed(a) && Keyed(b) && a.Obj? == b.Obj? {
      ReplayChildren(a, b, Names(a, b), path);
      AllMixed(a, b);
    } else {
      ReplayLeaves(a, b, path);
    }
  }

  /** Once the diff of all children is replayed, the children are those of the second tree. */
  lemma AllMixed(a: Json, b: Json)
    requires Keyed(a) && Keyed(b) && a.Obj? == b.Obj?
    ensures Tree(a.Obj?, Mixed(a, b, Names(a, b))) == CanonOf(b)
  {
    assert Mixed(a, b, Names(a, b)) == CanonOf(b).children;
  }

  lemma ReplayLeaves(a: Json, b: Json, path: seq<Segment>)
    requires !(Keyed(a) && Keyed(b) && a.Obj? == b.Obj?)
    ensures Replay(CanonOf(a), Diff(a, b, path), |path|) == CanonOf(b)
  {
    if Norm(a) == Norm(b) {
      DifferentKinds(a, b);
    } else {
      assert Replay(CanonOf(a), [], |path|) == CanonOf(a);
      assert Diff(a, b, path)[..0] == [];
    }
  }

  /** The children after replaying the part of the diff that concerns `names`. */
  function Mixed(a: Json, b: Json, names: seq<string>): map<string, Canon>
    requires Keyed(a) && Keyed(b)
  {
    var (am, bm) := (Children(a), Children(b));
    map k | k in am.Keys + bm.Keys && (if k in names then k in bm else k in am) ::
        CanonOf(if k in names then bm[k] else am[k])
  }

  lemma {:induction false} ReplayChildren(a: Json, b: Json, names: seq<string>, path: seq<Segment>)
    requires Keyed(a) && Keyed(b) && NoDuplicates(names) && forall k <- names :: k in Children(a) || k in Children(b)
    ensures Replay(CanonOf(a), DiffChildren(a, b, names, path), |path|) == Tree(a.Obj?, Mixed(a, b, names))
    decreases a, 0, |names|
  {
    if names == [] {
      assert CanonOf(a).children == Mixed(a, b, []);
    } else {
      var n := |names| - 1;
      var k := names[n];
      assert names == names[..n] + [k];
      ReplayChildren(a, b, names[..n], path);
      var c := Tree(a.Obj?, Mixed(a, b, names[..n]));
      ReplayAppend(CanonOf(a), DiffChildren(a, b, names[..n], path), DiffChild(a, b, k, path), |path|);
      assert k in names && k !in names[..n];
      ReplayOneChild(a, b, c, k, path);
      MixedOneMore(a, b, names[..n], k);
    }
  }

  lemma MixedOneMore(a: Json, b: Json, names: seq<string>, k: string)
    requires Keyed(a) && Keyed(b) && k !in names && (k in Children(a) || k in Children(b))
    ensures Mixed(a, b, names + [k])
         == if k in Children(b) then Mixed(a, b, names)[k := CanonOf(Children(b)[k])] else Mixed(a, b, names) - {k}
  {
    hide Children, CanonOf, Keyed;
    assert forall x :: x in names + [k] <==> x in names || x == k;
  }

  lemma {:induction false} ReplayOneChild(a: Json, b: Json, c: Canon, k: string, path: seq<Segment>)
    requires Keyed(a) && Keyed(b) && c.Tree? && (k in Children(a) || k in Children(b))
    requires k in c.children <==> k in Children(a)
    requires k in Children(a) ==> c.children[k] == CanonOf(Children(a)[k])
    ensures Replay(c, DiffChild(a, b, k, path), |path|)
         == c.(children := if k in Children(b) then c.children[k := CanonOf(Children(b)[k])] else c.children - {k})
    decreases a, 0, 0
  {
    var p := path + [Seg(a, k)];
    var changes := DiffChild(a, b, k, path);
    if k in Children(a) && k in Children(b) {
      DiffExtendsPath(Children(a)[k], Children(b)[k], p);
      forall ch <- changes ensures |ch.path| > |path| && ch.path[|path|].name == k
          && (ch.Changed? || |ch.path| > |path| + 1) {
        assert p <= ch.path;
        assert ch.path[|path|] == p[|path|];
      }
      ReplayInChild(c, changes, k, |path|);
      ReplayYieldsTarget(Children(a)[k], Children(b)[k], p);
    } else {
      assert changes[..0] == [];
      assert Replay(c, changes, |path|) == Play(c, changes[0], |path|);
    }
  }

  lemma ByIdOfOne(x: Json)
    requires HasId(x)
    ensures IdKeyed([x]) && ById([x]) == map[IdOf(x) := x]
  {
    assert [x][..0] == [];
    assert [x][0] in [x];
  }

  lemma ByIdOfTwo(x: Json, y: Json)
    requires HasId(x) && HasId(y)
    ensures IdKeyed([x, y]) && ById([x, y]) == map[IdOf(x) := x][IdOf(y) := y]
  {
    ByIdOfOne(x);
    assert [x, y][..1] == [x];
  }
}
