/** The nested domain object of an execution state and the three path operations on it. */
module Domain {

  datatype Json =
    | Null
    | Bool(b: bool)
    | Num(n: int)
    | Str(s: string)
    | List(items: seq<Json>)
    | Obj(fields: Dict)

  type Dict = map<string, Json>

  /** A dotted path, already split at its dots; the path pattern admits no empty path. */
  type Path = p: seq<string> | |p| > 0 witness ["x"]

  datatype Code =
    | NotFound | Invalid | DuplicateId | ForbiddenStatus | BadTransition | PromotionRequired
    | Stale | Terminal | MissingEvidence | UnknownEvidence | LimitExceeded | SchemaViolation | InvalidState | TooLarge

  datatype Result<+T> = Ok(value: T) | Err(code: Code)

  /** What happens to the last key of a path once its parent object is reached. */
  datatype LeafEdit = Set(v: Json) | Adjust(delta: int, dropAtZero: bool) | Delete

  function EditLeaf(d: Dict, key: string, e: LeafEdit): Result<Dict> {
    match e
    case Set(v) => Ok(d[key := v])
    case Adjust(delta, drop) =>
      var current := if key in d then d[key] else Num(0);
      if !current.Num? then Err(Invalid)
      else if current.n + delta == 0 && drop then Ok(d - {key})
      else Ok(d[key := Num(current.n + delta)])
    case Delete =>
      if key in d then Ok(d - {key}) else Err(NotFound)
  }

  /** The child object a walk steps into. A missing or null child is created, except when deleting. */
  function Child(d: Dict, key: string, create: bool): Result<Dict> {
    if key !in d || d[key].Null? then (if create then Ok(map[]) else Err(NotFound))
    else if d[key].Obj? then Ok(d[key].fields)
    else Err(Invalid)
  }

  function Edit(d: Dict, p: Path, e: LeafEdit): Result<Dict>
    decreases |p|
  {
    if |p| == 1 then EditLeaf(d, p[0], e)
    else
      match Child(d, p[0], !e.Delete?)
      case Err(c) => Err(c)
      case Ok(child) =>
        match Edit(child, p[1..], e)
        case Err(c) => Err(c)
        case Ok(child') => Ok(d[p[0] := Obj(child')])
  }

  datatype Option<+T> = None | Some(value: T) {
    function GetOr(default: T): T {
      if Some? then value else default
    }
  }

  function Lookup(d: Dict, p: Path): Option<Json>
    decreases |p|
  {
    if p[0] !in d then None
    else if |p| == 1 then Some(d[p[0]])
    else if d[p[0]].Obj? then Lookup(d[p[0]].fields, p[1..])
    else None
  }

  /** The number at a path; a path that holds no number counts as 0. */
  function NumAt(d: Dict, p: Path): int {
    match Lookup(d, p)
    case Some(Num(n)) => n
    case _ => 0
  }

  predicate Unrelated(p: Path, q: Path) {
    !(p <= q) && !(q <= p)
  }

  // ---- laws ----

  lemma {:induction false} SetIsReadBack(d: Dict, p: Path, v: Json)
    requires Edit(d, p, Set(v)).Ok?
    ensures Lookup(Edit(d, p, Set(v)).value, p) == Some(v)
    decreases |p|
  {
    if |p| > 1 {
      SetIsReadBack(Child(d, p[0], true).value, p[1..], v);
    }
  }

  /** What a creating walk may find on its way: nothing, null or an object. */
  predicate Passable(found: Option<Json>) {
    found.None? || found.value.Null? || found.value.Obj?
  }

  lemma PassableBelow(d: Dict, p: Path, k: nat)
    requires 1 < k < |p| && Child(d, p[0], true).Ok?
    ensures Passable(Lookup(d, p[..k])) <==> Passable(Lookup(Child(d, p[0], true).value, p[1..][..k-1]))
  {
    assert p[..k][1..] == p[1..][..k-1];
  }

  /** A set is refused exactly when something that is neither an object nor null sits on the way. */
  lemma {:induction false} SetAcceptedIff(d: Dict, p: Path, v: Json)
    ensures Edit(d, p, Set(v)).Ok? <==> forall k {:trigger p[..k]} :: 0 < k < |p| ==> Passable(Lookup(d, p[..k]))
    decreases |p|
  {
    if |p| > 1 {
      var c := Child(d, p[0], true);
      assert Lookup(d, p[..1]) == if p[0] in d then Some(d[p[0]]) else None;
      if c.Ok? {
        SetAcceptedIff(c.value, p[1..], v);
        forall k | 1 < k < |p| { PassableBelow(d, p, k); }
        if !Edit(c.value, p[1..], Set(v)).Ok? {
          var k :| 0 < k < |p[1..]| && !Passable(Lookup(c.value, p[1..][..k]));
          PassableBelow(d, p, k + 1);
        }
      }
    }
  }

  lemma {:induction false} DeleteAcceptedIff(d: Dict, p: Path)
    ensures Edit(d, p, Delete).Ok? <==> Lookup(d, p).Some?
    ensures Edit(d, p, Delete).Ok? ==> Lookup(Edit(d, p, Delete).value, p).None?
    decreases |p|
  {
    if |p| > 1 && Child(d, p[0], false).Ok? {
      DeleteAcceptedIff(Child(d, p[0], false).value, p[1..]);
    }
  }

  /** No operation disturbs a path that is neither above nor below its own. */
  lemma {:induction false} UnrelatedPathsUnaffected(d: Dict, p: Path, e: LeafEdit, q: Path)
    requires Edit(d, p, e).Ok? && Unrelated(p, q)
    ensures Lookup(Edit(d, p, e).value, q) == Lookup(d, q)
    decreases |p|
  {
    if p[0] == q[0] && |p| > 1 && |q| > 1 {
      var child := Child(d, p[0], !e.Delete?).value;
      assert p == [p[0]] + p[1..] && q == [q[0]] + q[1..];
      UnrelatedPathsUnaffected(child, p[1..], e, q[1..]);
      assert Lookup(d, q) == Lookup(child, q[1..]);
    }
  }

  /** One adjustment moves its own path by its delta and no other path at all, related or not. */
  lemma {:induction false} AdjustMovesOnePath(d: Dict, p: Path, delta: int, drop: bool, q: Path)
    requires Edit(d, p, Adjust(delta, drop)).Ok?
    ensures NumAt(Edit(d, p, Adjust(delta, drop)).value, q) == NumAt(d, q) + if q == p then delta else 0
    decreases |p|
  {
    if |p| > 1 && p[0] == q[0] && |q| > 1 {
      var child := Child(d, p[0], true).value;
      AdjustMovesOnePath(child, p[1..], delta, drop, q[1..]);
      assert p == [p[0]] + p[1..] && q == [q[0]] + q[1..];
    }
  }

  datatype Adjustment = Adjustment(path: Path, delta: int, dropAtZero: bool)

  function AdjustAll(d: Dict, adjs: seq<Adjustment>): Result<Dict>
    decreases |adjs|
  {
    if adjs == [] then Ok(d)
    else
      match Edit(d, adjs[0].path, Adjust(adjs[0].delta, adjs[0].dropAtZero))
      case Err(c) => Err(c)
      case Ok(d') => AdjustAll(d', adjs[1..])
  }

  function Deltas(adjs: seq<Adjustment>, q: Path): int {
    if adjs == [] then 0 else (if adjs[0].path == q then adjs[0].delta else 0) + Deltas(adjs[1..], q)
  }

  /** Conservation: after any accepted run of adjustments, to any mixture of nested paths, with or without
      dropping zeros, every path holds its initial number plus the deltas addressed to it. */
  lemma {:induction false} AdjustmentsConserve(d: Dict, adjs: seq<Adjustment>, q: Path)
    requires AdjustAll(d, adjs).Ok?
    ensures NumAt(AdjustAll(d, adjs).value, q) == NumAt(d, q) + Deltas(adjs, q)
    decreases |adjs|
  {
    if adjs != [] {
      var a := adjs[0];
      AdjustMovesOnePath(d, a.path, a.delta, a.dropAtZero, q);
      AdjustmentsConserve(Edit(d, a.path, Adjust(a.delta, a.dropAtZero)).value, adjs[1..], q);
    }
  }
}
