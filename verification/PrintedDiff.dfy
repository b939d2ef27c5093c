/** Reading the printed diff back: when the text of its paths is enough, and the names that make it ambiguous. */
module PrintedDiff {
  import opened Domain
  import opened Order
  import opened TreeDiff

  // ---- reading printed paths ----

  /** Keys that leave a printed path readable. */
  predicate KeyPlain(k: string) {
    k != "" && forall c <- k :: c != '.' && c != '['
  }

  /** No closing bracket in an id looks like its end. */
  predicate IdPlain(k: string) {
    forall i :: 0 <= i < |k| - 1 && k[i] == ']' ==> k[i+1] != '.'
  }

  predicate PlainSegment(s: Segment) {
    match s
    case Key(k) => KeyPlain(k)
    case Item(k) => IdPlain(k)
  }

  /** Plain names throughout; below a list item come only keys, since the items are objects. */
  predicate PlainPath(path: seq<Segment>) {
    && (forall s <- path :: PlainSegment(s))
    && (forall i :: 0 <= i < |path| - 1 && path[i].Item? ==> path[i+1].Key?)
  }

  function KeyEnd(s: string): (n: nat)
    ensures n <= |s|
  {
    if s == "" || s[0] == '.' || s[0] == '[' then 0 else 1 + KeyEnd(s[1..])
  }

  function IdEnd(s: string): (n: nat)
    ensures n <= |s|
  {
    if s == "" || (s[0] == ']' && (|s| == 1 || s[1] == '.')) then 0 else 1 + IdEnd(s[1..])
  }

  /** Reads what follows the first segment. */
  function ParseTail(s: string): seq<Segment>
    decreases |s|
  {
    if s == "" then []
    else if s[0] == '.' then
      var n := KeyEnd(s[1..]);
      [Key(s[1..][..n])] + ParseTail(s[1..][n..])
    else if s[0] == '[' then
      var n := IdEnd(s[1..]);
      [Item(s[1..][..n])] + if n < |s| - 1 then ParseTail(s[1..][n+1..]) else []
    else []
  }

  function Parse(s: string): seq<Segment> {
    if s == "" || s[0] == '[' then ParseTail(s) else ParseTail("." + s)
  }

  /** A segment as it stands behind another one. */
  function Shown(s: Segment): string {
    match s
    case Key(k) => "." + k
    case Item(k) => "[" + k + "]"
  }

  function ShownAll(path: seq<Segment>): string {
    if path == [] then "" else Shown(path[0]) + ShownAll(path[1..])
  }

  lemma {:induction false} KeyEndAt(k: string, rest: string)
    requires forall c <- k :: c != '.' && c != '['
    requires rest == "" || rest[0] == '.' || rest[0] == '['
    ensures KeyEnd(k + rest) == |k|
  {
    if k == "" {
      assert k + rest == rest;
    } else {
      assert (k + rest)[1..] == k[1..] + rest && (k + rest)[0] == k[0];
      assert k[0] in k && forall c <- k[1..] :: c in k;
      KeyEndAt(k[1..], rest);
    }
  }

  lemma {:induction false} IdEndAt(k: string, rest: string)
    requires IdPlain(k) && (rest == "" || rest[0] == '.')
    ensures IdEnd(k + "]" + rest) == |k|
  {
    var s := k + "]" + rest;
    if k == "" {
      assert s[0] == ']' && s[1..] == rest;
    } else {
      assert s[1..] == k[1..] + "]" + rest;
      forall i | 0 <= i < |k[1..]| - 1 && k[1..][i] == ']' ensures k[1..][i+1] != '.' {
        assert k[i+1] == ']';
      }
      IdEndAt(k[1..], rest);
      assert s[0] == k[0] && s[1] == if |k| > 1 then k[1] else ']';
    }
  }

  lemma ShownStart(path: seq<Segment>)
    ensures ShownAll(path) == "" || ShownAll(path)[0] == '.' || ShownAll(path)[0] == '['
    ensures path != [] ==> ShownAll(path) != "" && (path[0].Key? ==> ShownAll(path)[0] == '.')
  {}

  lemma ReadsKey(k: string, rest: string)
    requires KeyPlain(k) && (rest == "" || rest[0] == '.' || rest[0] == '[')
    ensures ParseTail("." + k + rest) == [Key(k)] + ParseTail(rest)
  {
    var s := "." + k + rest;
    assert s[0] == '.' && s[1..] == k + rest;
    KeyEndAt(k, rest);
    assert (k + rest)[..|k|] == k && (k + rest)[|k|..] == rest;
  }

  lemma ReadsItem(k: string, rest: string)
    requires IdPlain(k) && (rest == "" || rest[0] == '.')
    ensures ParseTail("[" + k + "]" + rest) == [Item(k)] + ParseTail(rest)
  {
    hide IdPlain, IdEnd, KeyEnd;
    var t := k + "]" + rest;
    assert "[" + k + "]" + rest == "[" + t;
    IdEndAt(k, rest);
    assert t[..|k|] == k && t[|k|+1..] == rest;
  }

  lemma {:induction false} ParseTailReads(path: seq<Segment>)
    requires PlainPath(path)
    ensures ParseTail(ShownAll(path)) == path
  {
    if path != [] {
      hide ParseTail, KeyPlain, IdPlain;
      var rest := ShownAll(path[1..]);
      assert PlainPath(path[1..]) by {
        assert forall i :: 0 <= i < |path[1..]| ==> path[1..][i] == path[i+1];
      }
      ParseTailReads(path[1..]);
      ShownStart(path[1..]);
      assert PlainSegment(path[0]);
      match path[0] {
        case Key(k) => ReadsKey(k, rest);
        case Item(k) => ReadsItem(k, rest);
      }
      assert path == [path[0]] + path[1..];
    }
  }

  lemma {:induction false} ShownFurther(path: seq<Segment>, s: Segment)
    ensures ShownAll(path + [s]) == ShownAll(path) + Shown(s)
  {
    if path == [] {
      assert [s][1..] == [];
    } else {
      assert (path + [s])[1..] == path[1..] + [s];
      ShownFurther(path[1..], s);
    }
  }

  /** Only the dot before a first key is not printed. */
  predicate PrintedAs(firstIsKey: bool, shown: string, printed: string) {
    && shown == (if firstIsKey then "." + printed else printed)
    && printed != "" && (firstIsKey <==> printed[0] != '[')
  }

  lemma PrintedFurther(firstIsKey: bool, shown: string, printed: string, more: string)
    requires PrintedAs(firstIsKey, shown, printed)
    ensures PrintedAs(firstIsKey, shown + more, printed + more)
  {
    assert "." + (printed + more) == ("." + printed) + more;
  }

  lemma {:induction false} RenderIsShown(path: seq<Segment>)
    requires PlainPath(path) && path != []
    ensures PrintedAs(path[0].Key?, ShownAll(path), Render(path))
    decreases |path|
  {
    hide Render, ShownAll, PrintedAs, PlainSegment;
    var n := |path| - 1;
    var front, s := path[..n], path[n];
    assert path == front + [s];
    assert PlainSegment(s) && forall x <- front :: x in path;
    if front == [] {
      assert path == [s];
      RenderSingle(s);
    } else {
      RenderIsShown(front);
      RenderOneMore(front, s);
    }
  }

  lemma RenderOneMore(front: seq<Segment>, s: Segment)
    requires front != [] && PrintedAs(front[0].Key?, ShownAll(front), Render(front))
    requires PlainSegment(s)
    ensures PrintedAs(front[0].Key?, ShownAll(front + [s]), Render(front + [s]))
  {
    hide *;
    RenderNonempty(front[0].Key?, ShownAll(front), Render(front));
    RenderBehind(front, s);
    ShownFurther(front, s);
    PrintedFurther(front[0].Key?, ShownAll(front), Render(front), Shown(s));
  }

  lemma RenderNonempty(firstIsKey: bool, shown: string, printed: string)
    requires PrintedAs(firstIsKey, shown, printed)
    ensures printed != ""
  {}

  lemma RenderSingle(s: Segment)
    requires PlainSegment(s)
    ensures PrintedAs(s.Key?, ShownAll([s]), Render([s]))
  {
    RenderFurther([], s);
    assert [] + [s] == [s] && [s][1..] == [];
    if s.Key? {
      assert s.name[0] in s.name;
    }
  }

  lemma RenderBehind(front: seq<Segment>, s: Segment)
    requires Render(front) != ""
    ensures Render(front + [s]) == Render(front) + Shown(s)
  {
    RenderFurther(front, s);
    hide Render;
  }

  /** Printed paths can be read back, so no two plain paths are printed alike. */
  lemma ParseReads(path: seq<Segment>)
    requires PlainPath(path)
    ensures Parse(Render(path)) == path
  {
    ParseTailReads(path);
    if path != [] {
      RenderIsShown(path);
    }
  }

  // ---- replaying the printed diff ----

  /** No key of an object and no id of a list item makes a printed path ambiguous, at any depth. */
  predicate PlainTree(j: Json)
    decreases j
  {
    Keyed(j) ==> forall k <- Children(j) :: PlainSegment(Seg(j, k)) && PlainTree(Children(j)[k])
  }

  predicate PlainPaths(changes: seq<Change>) {
    forall ch <- changes :: PlainPath(ch.path)
  }

  predicate EndsInItem(path: seq<Segment>) {
    path != [] && path[|path|-1].Item?
  }

  lemma {:induction false} DiffIsPlain(a: Json, b: Json, path: seq<Segment>)
    requires PlainTree(a) && PlainTree(b) && PlainPath(path) && (EndsInItem(path) ==> a.Obj? && b.Obj?)
    ensures PlainPaths(Diff(a, b, path))
    decreases a, 1, 0
  {
    if Keyed(a) && Keyed(b) && a.Obj? == b.Obj? {
      DiffChildrenArePlain(a, b, Names(a, b), path);
    }
  }

  lemma PlainChild(a: Json, b: Json, name: string, path: seq<Segment>)
    requires Keyed(a) && Keyed(b) && a.Obj? == b.Obj? && PlainPath(path) && (EndsInItem(path) ==> a.Obj?)
    requires PlainTree(a) && PlainTree(b) && (name in Children(a) || name in Children(b))
    ensures var p := path + [Seg(a, name)];
      && PlainPath(p)
      && (EndsInItem(p) ==>
          && (name in Children(a) ==> Children(a)[name].Obj?)
          && (name in Children(b) ==> Children(b)[name].Obj?))
    ensures name in Children(a) ==> PlainTree(Children(a)[name])
    ensures name in Children(b) ==> PlainTree(Children(b)[name])
  {
    hide KeyPlain, IdPlain;
    var p := path + [Seg(a, name)];
    assert PlainSegment(Seg(a, name));
    hide PlainTree;
    forall i | 0 <= i < |p| - 1 && p[i].Item? ensures p[i+1].Key? {
      assert p[i] == path[i];
      if i < |path| - 1 {
        assert p[i+1] == path[i+1];
      }
    }
  }

  lemma {:induction false} DiffChildrenArePlain(a: Json, b: Json, names: seq<string>, path: seq<Segment>)
    requires Keyed(a) && Keyed(b) && a.Obj? == b.Obj? && PlainTree(a) && PlainTree(b) && PlainPath(path)
    requires EndsInItem(path) ==> a.Obj?
    ensures PlainPaths(DiffChildren(a, b, names, path))
    decreases a, 0, |names|
  {
    if names != [] {
      hide PlainPath, PlainTree, EndsInItem, Keyed, Diff;
      var n := |names| - 1;
      DiffChildrenArePlain(a, b, names[..n], path);
      if names[n] in Children(a) || names[n] in Children(b) {
        PlainChild(a, b, names[n], path);
        if names[n] in Children(a) && names[n] in Children(b) {
          DiffIsPlain(Children(a)[names[n]], Children(b)[names[n]], path + [Seg(a, names[n])]);
        }
      }
    }
  }

  function ParseLine(l: Line): Change {
    match l
    case Added(p, v) => Added(Parse(p), v)
    case Removed(p, v) => Removed(Parse(p), v)
    case Changed(p, x, y) => Changed(Parse(p), x, y)
  }

  function ParseAll(lines: seq<Line>): (r: seq<Change>)
    ensures |r| == |lines|
    ensures forall i :: 0 <= i < |lines| ==> r[i] == ParseLine(lines[i])
  {
    seq(|lines|, i requires 0 <= i < |lines| => ParseLine(lines[i]))
  }

  lemma ParseAllReads(changes: seq<Change>)
    requires PlainPaths(changes)
    ensures ParseAll(RenderAll(changes)) == changes
  {
    forall i | 0 <= i < |changes| ensures ParseAll(RenderAll(changes))[i] == changes[i] {
      assert changes[i] in changes;
      ParseReads(changes[i].path);
    }
  }

  /** The printed diff, read line by line and replayed on the first tree, yields the second one, up to the order of
      id-keyed lists, provided that the names in both trees are plain. */
  lemma PrintedReplayYieldsTarget(a: Json, b: Json)
    requires PlainTree(a) && PlainTree(b)
    ensures Replay(CanonOf(a), ParseAll(RenderAll(Diff(a, b, []))), 0) == CanonOf(b)
  {
    hide Replay, CanonOf, Diff, PlainTree;
    DiffIsPlain(a, b, []);
    ParseAllReads(Diff(a, b, []));
    ReplayYieldsTarget(a, b, []);
  }

  /** Two targets that the printed diff does not tell apart. */
  predicate Collide(a: Json, b: Json, b': Json) {
    RenderAll(Diff(a, b, [])) == RenderAll(Diff(a, b', [])) && CanonOf(b) != CanonOf(b')
  }

  lemma PlainTreesDoNotCollide(a: Json, b: Json, b': Json)
    requires PlainTree(a) && PlainTree(b) && PlainTree(b')
    ensures !Collide(a, b, b')
  {
    hide Replay, CanonOf, Diff, PlainTree;
    PrintedReplayYieldsTarget(a, b);
    PrintedReplayYieldsTarget(a, b');
  }

  // ---- names that are not plain ----

  lemma LastIsNew(names: seq<string>)
    requires names != [] && NoDuplicates(names)
    ensures var (front, last) := (names[..|names|-1], names[|names|-1]);
      NoDuplicates(front) && last !in front && forall x :: x in names <==> x in front || x == last
  {
    assert names == names[..|names|-1] + [names[|names|-1]];
  }

  lemma {:induction false} OnlyChild(a: Json, b: Json, names: seq<string>, k: string, path: seq<Segment>)
    requires Keyed(a) && Keyed(b) && NoDuplicates(names)
    requires forall x <- names :: x != k ==> DiffChild(a, b, x, path) == []
    ensures DiffChildren(a, b, names, path) == if k in names then DiffChild(a, b, k, path) else []
    decreases |names|
  {
    hide DiffChild, Children, Keyed, NoDuplicates;
    if names != [] {
      LastIsNew(names);
      OnlyChild(a, b, names[..|names|-1], k, path);
    }
  }

  /** Trees that differ in one child differ by the diff of that child. */
  lemma OneChildDiffers(a: Json, b: Json, k: string, path: seq<Segment>)
    requires Keyed(a) && Keyed(b) && a.Obj? == b.Obj? && (k in Children(a) || k in Children(b))
    requires forall x :: x != k ==> (x in Children(a) <==> x in Children(b))
    requires forall x <- Children(a) :: x != k ==> Children(a)[x] == Children(b)[x]
    ensures Diff(a, b, path) == DiffChild(a, b, k, path)
  {
    var names := Names(a, b);
    forall x | x in names && x != k ensures DiffChild(a, b, x, path) == [] {
      DiffEmptyIff(Children(a)[x], Children(a)[x], path + [Seg(a, x)]);
    }
    OnlyChild(a, b, names, k, path);
  }

  /** Objects that differ in one field. */
  lemma FieldDiffers(fields: Dict, k: string, x: Json, y: Json, path: seq<Segment>)
    ensures Diff(Obj(fields[k := x]), Obj(fields[k := y]), path) == Diff(x, y, path + [Key(k)])
    ensures CanonOf(Obj(fields[k := x])).children[k] == CanonOf(x)
  {
    OneChildDiffers(Obj(fields[k := x]), Obj(fields[k := y]), k, path);
  }

  lemma NumbersDiffer(m: int, n: int, path: seq<Segment>)
    requires m != n
    ensures Diff(Num(m), Num(n), path) == [Changed(path, Num(m), Num(n))] && CanonOf(Num(m)) != CanonOf(Num(n))
  {}

  lemma CollideBy(a: Json, b: Json, b': Json, ch: Change, ch': Change)
    requires Diff(a, b, []) == [ch] && Diff(a, b', []) == [ch'] && RenderChange(ch) == RenderChange(ch')
    requires CanonOf(b) != CanonOf(b')
    ensures Collide(a, b, b')
  {
    hide Diff, CanonOf;
  }

  /** An object of two fields. */
  function Two(k: string, x: Json, u: string, y: Json): Json {
    Obj(map[k := x, u := y])
  }

  /** An object of one field. */
  function One(k: string, x: Json): Json {
    Obj(map[][k := x])
  }

  lemma FirstDiffers(k: string, x: Json, x': Json, u: string, y: Json)
    requires k != u
    ensures Diff(Two(k, x, u, y), Two(k, x', u, y), []) == Diff(x, x', [Key(k)])
  {
    hide Diff;
    assert map[k := x, u := y] == map[u := y][k := x] && map[k := x', u := y] == map[u := y][k := x'];
    FieldDiffers(map[u := y], k, x, x', []);
    assert [] + [Key(k)] == [Key(k)];
  }

  lemma SecondDiffers(k: string, x: Json, u: string, y: Json, y': Json)
    requires k != u
    ensures Diff(Two(k, x, u, y), Two(k, x, u, y'), []) == Diff(y, y', [Key(u)])
  {
    hide Diff;
    FieldDiffers(map[k := x], u, y, y', []);
    assert [] + [Key(u)] == [Key(u)];
  }

  lemma FirstTells(k: string, x: Json, x': Json, u: string, y: Json, y': Json)
    requires k != u && CanonOf(x) != CanonOf(x')
    ensures CanonOf(Two(k, x, u, y)) != CanonOf(Two(k, x', u, y'))
  {
    assert CanonOf(Two(k, x, u, y)).children[k] == CanonOf(x);
    assert CanonOf(Two(k, x', u, y')).children[k] == CanonOf(x');
  }

  lemma OneDiffers(v: string, m: int, n: int, u: string)
    requires m != n
    ensures Diff(One(v, Num(m)), One(v, Num(n)), [Key(u)]) == [Changed([Key(u), Key(v)], Num(m), Num(n))]
  {
    hide Diff;
    FieldDiffers(map[], v, Num(m), Num(n), [Key(u)]);
    NumbersDiffer(m, n, [Key(u), Key(v)]);
    assert [Key(u)] + [Key(v)] == [Key(u), Key(v)];
  }

  lemma RenderKeys(u: string, v: string)
    ensures Render([Key(u)]) == u
    ensures Render([Key(u), Key(v)]) == if u == "" then v else u + "." + v
  {
    RenderFurther([], Key(u));
    RenderFurther([Key(u)], Key(v));
    assert [] + [Key(u)] == [Key(u)] && [Key(u)] + [Key(v)] == [Key(u), Key(v)];
  }

  /** A key with a dot is printed like a key below another one, and a key below the empty key like the key alone. */
  lemma DottedKeysCollide(u: string, v: string, m: int, n: int)
    requires m != n && (u == "" ==> v != "")
    ensures var k := if u == "" then v else u + "." + v; var (x, y) := (Num(m), Num(n));
      Collide(Two(k, x, u, One(v, x)), Two(k, y, u, One(v, x)), Two(k, x, u, One(v, y)))
  {
    hide Diff, CanonOf, Render, Two, One, Collide;
    var k, x, y := if u == "" then v else u + "." + v, Num(m), Num(n);
    assert k != u by {
      assert |k| != |u|;
    }
    FirstDiffers(k, x, y, u, One(v, x));
    SecondDiffers(k, x, u, One(v, x), One(v, y));
    OneDiffers(v, m, n, u);
    NumbersDiffer(m, n, [Key(k)]);
    FirstTells(k, y, x, u, One(v, x), One(v, y));
    RenderKeys(k, v);
    RenderKeys(u, v);
    CollideBy(Two(k, x, u, One(v, x)), Two(k, y, u, One(v, x)), Two(k, x, u, One(v, y)),
              Changed([Key(k)], x, y), Changed([Key(u), Key(v)], x, y));
  }

  // ---- brackets ----

  lemma ChildAdded(a: Json, b: Json, k: string, path: seq<Segment>)
    requires Keyed(a) && Keyed(b) && a.Obj? == b.Obj? && k !in Children(a) && k in Children(b)
    requires Children(b) == Children(a)[k := Children(b)[k]]
    ensures Diff(a, b, path) == [Added(path + [Seg(a, k)], Children(b)[k])]
  {
    OneChildDiffers(a, b, k, path);
  }

  /** An item with an id and nothing else. */
  function Bare(id: string): Json {
    Obj(map["id" := Str(id)])
  }

  lemma BracketAdded(k: string, x: Json)
    ensures Diff(Obj(map[]), One("]", x), [Key(k)]) == [Added([Key(k), Key("]")], x)]
    ensures CanonOf(One("]", x)) != CanonOf(Obj(map[]))
  {
    ChildAdded(Obj(map[]), One("]", x), "]", [Key(k)]);
    assert [Key(k)] + [Key("]")] == [Key(k), Key("]")];
    assert "]" in CanonOf(One("]", x)).children && "]" !in CanonOf(Obj(map[])).children;
  }

  lemma FirstItemAdded(u: string, i: string)
    ensures Diff(List([]), List([Bare(i)]), [Key(u)]) == [Added([Key(u), Item(i)], Bare(i))]
  {
    ByIdOfOne(Bare(i));
    ChildAdded(List([]), List([Bare(i)]), i, [Key(u)]);
    assert [Key(u)] + [Item(i)] == [Key(u), Item(i)];
  }

  /** A key with an opening bracket is printed like the beginning of an item of a list under another key. */
  lemma BracketedKeysCollide(u: string, v: string)
    ensures var (k, i) := (u + "[" + v, v + "."); var (none, e) := (List([]), Obj(map[]));
      Collide(Two(k, e, u, none), Two(k, One("]", Bare(i)), u, none), Two(k, e, u, List([Bare(i)])))
  {
    hide Diff, CanonOf, Render, Bare, Collide, Two, One;
    var k, i, none, e := u + "[" + v, v + ".", List([]), Obj(map[]);
    assert |k| > |u|;
    FirstDiffers(k, e, One("]", Bare(i)), u, none);
    SecondDiffers(k, e, u, none, List([Bare(i)]));
    BracketAdded(k, Bare(i));
    FirstItemAdded(u, i);
    FirstTells(k, One("]", Bare(i)), e, u, none, List([Bare(i)]));
    RenderKeys(k, "]");
    RenderKeys(u, "");
    RenderFurther([Key(u)], Item(i));
    assert [Key(u)] + [Item(i)] == [Key(u), Item(i)];
    assert k + "." + "]" == u + "[" + i + "]";
    CollideBy(Two(k, e, u, none), Two(k, One("]", Bare(i)), u, none), Two(k, e, u, List([Bare(i)])),
              Added([Key(k), Key("]")], Bare(i)), Added([Key(u), Item(i)], Bare(i)));
  }

  /** The item with a further field. */
  function With(id: string, k: string, x: Json): Json {
    Obj(Bare(id).fields[k := x])
  }

  lemma FieldOfItemAdded(u: string, k: string, x: Json)
    requires k != "id"
    ensures var (a, b) := (List([Bare(u)]), List([With(u, k, x)]));
      Diff(a, b, []) == [Added([Item(u), Key(k)], x)] && CanonOf(b).children.Keys == {u}
  {
    hide Names;
    ByIdOfOne(Bare(u));
    ByIdOfOne(With(u, k, x));
    OneChildDiffers(List([Bare(u)]), List([With(u, k, x)]), u, []);
    ChildAdded(Bare(u), With(u, k, x), k, [Item(u)]);
    assert [] + [Item(u)] == [Item(u)] && [Item(u)] + [Key(k)] == [Item(u), Key(k)];
  }

  lemma ItemAdded(u: string, i: string)
    requires i != u
    ensures var (a, b) := (List([Bare(u)]), List([Bare(u), Bare(i)]));
      Diff(a, b, []) == [Added([Item(i)], Bare(i))] && CanonOf(b).children.Keys == {u, i}
  {
    ByIdOfOne(Bare(u));
    ByIdOfTwo(Bare(u), Bare(i));
    ChildAdded(List([Bare(u)]), List([Bare(u), Bare(i)]), i, []);
    assert [] + [Item(i)] == [Item(i)];
  }

  lemma RenderItems(u: string, k: string)
    ensures Render([Item(u)]) == "[" + u + "]"
    ensures Render([Item(u), Key(k)]) == "[" + u + "]" + "." + k
  {
    RenderFurther([], Item(u));
    RenderFurther([Item(u)], Key(k));
    assert [] + [Item(u)] == [Item(u)] && [Item(u)] + [Key(k)] == [Item(u), Key(k)];
  }

  /** An id with a closing bracket and a dot in it is printed like a key of the item whose id ends there. */
  lemma BracketedIdsCollide(u: string, w: string)
    ensures var i := u + "]." + w; Collide(List([Bare(u)]), List([With(u, w + "]", Bare(i))]), List([Bare(u), Bare(i)]))
  {
    hide Diff, CanonOf, Render, With, Bare, Collide;
    var i, k := u + "]." + w, w + "]";
    assert k[|k|-1] == ']' && "id"[1] == 'd';
    assert |i| > |u|;
    FieldOfItemAdded(u, k, Bare(i));
    ItemAdded(u, i);
    RenderItems(u, k);
    RenderItems(i, k);
    assert i in {u, i} && i !in {u};
    assert "[" + u + "]" + "." + k == "[" + i + "]";
    CollideBy(List([Bare(u)]), List([With(u, k, Bare(i))]), List([Bare(u), Bare(i)]),
              Added([Item(u), Key(k)], Bare(i)), Added([Item(i)], Bare(i)));
  }
}
