/** The service registry benchmark: records, orders, the simulator and its tool. */
module Registry {
  import opened Domain
  import opened Words
  import Text
  import Ledger
  import Lex = Order

  const NAMES: seq<string> :=
      ["auth", "billing", "cart", "catalog", "gateway", "inventory", "ledger", "mailer", "notify", "orders",
                               "payments", "pricing", "reports", "search", "sessions", "shipping", "users", "webhooks"]
  const STATUSES: set<string> := {"up", "down", "degraded"}

  datatype Record = Record(port: nat, status: string, deps: seq<string>)
  type Records = map<string, Record>

  datatype Order =
    | SetPort(service: string, port: nat) | SetStatus(service: string, status: string)
    | AddDep(service: string, dep: string) | RemoveDep(service: string, dep: string)
    | AskPort(service: string) | AskStatus(service: string) | AskDeps(service: string) | AskDependents(service: string)

  datatype Verb = DoSetPort | DoSetStatus | DoAddDep | DoRemoveDep | Answer | GetRecord

  /** A tool call; value and answer are taken as the texts they are compared as. */
  datatype Call = Call(verb: Verb, service: Option<string>, value: string, answer: string)

  predicate Mutation(o: Order) {
    o.SetPort? || o.SetStatus? || o.AddDep? || o.RemoveDep?
  }

  function VerbOf(o: Order): Verb
    requires Mutation(o)
  {
    if o.SetPort? then DoSetPort else if o.SetStatus? then DoSetStatus else if o.AddDep? then DoAddDep else DoRemoveDep
  }

  function ArgOf(o: Order): string
    requires Mutation(o)
  {
    match o
    case SetPort(_, port) => Text.Dec(port)
    case SetStatus(_, status) => status
    case AddDep(_, dep) => dep
    case RemoveDep(_, dep) => dep
  }

  function Without(xs: seq<string>, x: string): seq<string> {
    if xs == [] then [] else Without(xs[..|xs|-1], x) + if xs[|xs|-1] == x then [] else [xs[|xs|-1]]
  }

  function Mutated(r: Record, o: Order): Record
    requires Mutation(o)
  {
    match o
    case SetPort(_, port) => r.(port := port)
    case SetStatus(_, status) => r.(status := status)
    case AddDep(_, dep) => if dep in r.deps then r else r.(deps := Lex.Sort(r.deps + [dep]))
    case RemoveDep(_, dep) => r.(deps := Without(r.deps, dep))
  }

  /** All services that depend on the given one, in order. */
  function Dependents(rs: Records, service: string): seq<string> {
    Lex.SortedSet(set n <- rs | service in rs[n].deps)
  }

  predicate AnswerIsRight(rs: Records, o: Order, answer: string)
    requires !Mutation(o) && o.service in rs
  {
    match o
    case AskPort(s) => Strip(answer) == Text.Dec(rs[s].port)
    case AskStatus(s) => Lower(Strip(answer)) == rs[s].status
    case AskDeps(s) => Lex.Sort(Split(answer)) == rs[s].deps
    case AskDependents(s) => Lex.Sort(Split(answer)) == Dependents(rs, s)
  }

  predicate Correct(rs: Records, o: Order, c: Call)
    requires o.service in rs
  {
    if Mutation(o) then c.verb == VerbOf(o) && c.service == Some(o.service) && c.value == ArgOf(o)
    else c.verb.Answer? && AnswerIsRight(rs, o, c.answer)
  }

  /** Only a correct mutation changes the registry. */
  function World(rs: Records, o: Order, c: Call): Records
    requires o.service in rs
  {
    if Mutation(o) && Correct(rs, o, c) then rs[o.service := Mutated(rs[o.service], o)] else rs
  }

  // ---- what the tool reports ----

  function Strings(xs: seq<string>): (r: seq<Json>)
    ensures |r| == |xs| && forall i :: 0 <= i < |xs| ==> r[i] == Str(xs[i])
  {
    seq(|xs|, i requires 0 <= i < |xs| => Str(xs[i]))
  }

  function RecordFact(r: Record): Dict {
    map["port" := Num(r.port), "status" := Str(r.status), "deps" := List(Strings(r.deps))]
  }

  /** The record a correct mutation leaves behind. */
  function Facts(rs: Records, o: Order, ok: bool): seq<Ledger.Report>
    requires o.service in rs
  {
    if ok && Mutation(o) then [Ledger.Report(o.service, RecordFact(rs[o.service]))] else []
  }

  // ---- soundness ----

  /** Dependencies are other known services, sorted and without duplicates. */
  predicate SoundRecord(r: Record, name: string, names: set<string>) {
    && r.status in STATUSES
    && Lex.Sorted(r.deps) && Lex.NoDuplicates(r.deps)
    && forall d <- r.deps :: d in names && d != name
  }

  predicate Sound(rs: Records) {
    forall n <- rs :: SoundRecord(rs[n], n, rs.Keys)
  }

  /** What the generator can draw. */
  predicate Legal(o: Order, names: set<string>) {
    && o.service in names
    && (o.SetStatus? ==> o.status in STATUSES)
    && (o.AddDep? || o.RemoveDep? ==> o.dep in names && o.dep != o.service)
  }

  lemma {:induction false} WithoutKeeps(xs: seq<string>, x: string)
    ensures forall y :: y in Without(xs, x) <==> y in xs && y != x
    ensures Lex.NoDuplicates(xs) ==> Lex.NoDuplicates(Without(xs, x))
    ensures Lex.Sorted(xs) ==> Lex.Sorted(Without(xs, x))
    decreases |xs|
  {
    if xs != [] {
      var n := |xs| - 1;
      assert xs == xs[..n] + [xs[n]];
      WithoutKeeps(xs[..n], x);
      var ys := Without(xs[..n], x);
      forall i | 0 <= i < |ys| ensures ys[i] in xs[..n] {
        assert ys[i] in ys;
      }
    }
  }

  /** Adding and removing dependencies keeps the list sorted and free of duplicates; adding makes exactly the new one a
      member, removing takes exactly that one away. */
  lemma MutationKeepsSound(r: Record, name: string, names: set<string>, o: Order)
    requires SoundRecord(r, name, names) && Legal(o, names) && Mutation(o) && o.service == name
    ensures SoundRecord(Mutated(r, o), name, names)
    ensures forall d :: d in Mutated(r, o).deps <==>
              if o.AddDep? then d in r.deps || d == o.dep else if o.RemoveDep? then d in r.deps
                  && d != o.dep else d in r.deps
  {
    match o
    case AddDep(_, dep) =>
      if dep !in r.deps {
        Lex.SortCorrect(r.deps + [dep]);
        assert Lex.NoDuplicates(r.deps + [dep]);
      }
    case RemoveDep(_, dep) => WithoutKeeps(r.deps, dep);
    case _ =>
  }

  lemma WorldStaysSound(rs: Records, o: Order, c: Call)
    requires Sound(rs) && Legal(o, rs.Keys)
    ensures Sound(World(rs, o, c)) && World(rs, o, c).Keys == rs.Keys
  {
    if Mutation(o) {
      MutationKeepsSound(rs[o.service], o.service, rs.Keys, o);
    }
    assert World(rs, o, c).Keys == rs.Keys;
  }

  /** `dependents` is the inverse of the dependency lists, sorted and without duplicates. */
  lemma DependentsInvertDeps(rs: Records, service: string)
    ensures forall n :: n in Dependents(rs, service) <==> n in rs && service in rs[n].deps
    ensures Lex.Sorted(Dependents(rs, service)) && Lex.NoDuplicates(Dependents(rs, service))
  {
    hide Lex.SortedSet;
  }

  // ---- the simulator ----

  class RegistryEnv {
    var records: Records
    var orders: seq<Order>
    var cursor: nat
    var log: seq<bool>

    ghost predicate Valid()
      reads this
    {
      Sound(records) && cursor == |log| <= |orders| && forall o <- orders :: Legal(o, records.Keys)
    }

    /** The first `n` names, each with the dependencies drawn for it; orders as drawn. */
    constructor (n: nat, drawn: seq<seq<string>>, orders: seq<Order>)
      requires n <= |NAMES| && |drawn| == n
      requires forall i :: 0 <= i < n ==> Lex.NoDuplicates(drawn[i]) && forall d <- drawn[i] ::
        d in NAMES[..n] && d != NAMES[i]
      requires forall o <- orders :: Legal(o, set x <- NAMES[..n])
      ensures Valid() && cursor == 0 && log == [] && this.orders == orders
      ensures records.Keys == (set x <- NAMES[..n])
      ensures forall i :: 0 <= i < n ==> records[NAMES[i]] == Record(8000 + i, "up", Lex.Sort(drawn[i]))
    {
      records := map[];
      this.orders, cursor, log := orders, 0, [];
      new;
      hide NAMES;
      FillRecords(n, drawn);
      forall name | name in records ensures SoundRecord(records[name], name, records.Keys) {
        var i :| 0 <= i < n && NAMES[i] == name;
        Lex.SortCorrect(drawn[i]);
      }
    }

    method FillRecords(n: nat, drawn: seq<seq<string>>)
      requires n <= |NAMES| && |drawn| == n && records == map[]
      modifies `records
      ensures records.Keys == (set x <- NAMES[..n])
      ensures forall i :: 0 <= i < n ==> records[NAMES[i]] == Record(8000 + i, "up", Lex.Sort(drawn[i]))
    {
      NamesDistinct();
      hide NAMES, Lex.Sort;
      for i := 0 to n
        invariant records.Keys == (set x <- NAMES[..i])
        invariant forall j :: 0 <= j < i ==> records[NAMES[j]] == Record(8000 + j, "up", Lex.Sort(drawn[j]))
      {
        assert NAMES[..i+1] == NAMES[..i] + [NAMES[i]];
        records := records[NAMES[i] := Record(8000 + i, "up", Lex.Sort(drawn[i]))];
      }
    }

    /** `dependents`: one pass over the records, in whatever order the dictionary lists them, and a sort. */
    method ListDependents(service: string, listed: seq<string>) returns (r: seq<string>)
      requires Lex.NoDuplicates(listed) && forall n :: n in listed <==> n in records
      ensures forall n :: n in r <==> n in records && service in records[n].deps
      ensures Lex.Sorted(r) && Lex.NoDuplicates(r) && r == Dependents(records, service)
    {
      hide Lex.Sort, Lex.SortedSet;
      var found := [];
      for i := 0 to |listed|
        invariant Lex.NoDuplicates(found) && forall n <- found :: n in listed[..i]
        invariant forall n <- listed[..i] :: n in records && (n in found <==> service in records[n].deps)
      {
        assert listed[..i+1] == listed[..i] + [listed[i]] && listed[i] in listed;
        assert listed[i] !in listed[..i];
        if service in records[listed[i]].deps {
          found := found + [listed[i]];
        }
      }
      assert listed[..|listed|] == listed;
      Lex.SortCorrect(found);
      r := Lex.Sort(found);
      DependentsInvertDeps(records, service);
      Lex.SortedUnique(r, Dependents(records, service));
    }

    /** `act`: reading a record consumes nothing; anything else is scored and consumes the order, and only a correct
        mutation changes a record. */
    method Act(c: Call) returns (ok: bool, facts: seq<Ledger.Report>)
      requires Valid()
      modifies this
      ensures Valid() && orders == old(orders) && records.Keys == old(records.Keys)
      ensures old(cursor) == |orders| ==> !ok && facts == [] && unchanged(this)
      ensures old(cursor) < |orders| && c.verb.GetRecord? ==>
        && unchanged(this)
        && (ok <==> c.service.Some? && c.service.value in records)
        && facts == if ok then [Ledger.Report(c.service.value, RecordFact(records[c.service.value]))] else []
      ensures old(cursor) < |orders| && !c.verb.GetRecord? ==>
        var o := orders[old(cursor)];
        && o.service in old(records)
        && ok == Correct(old(records), o, c) && records == World(old(records), o, c)
        && facts == Facts(records, o, ok) && cursor == old(cursor) + 1 && log == old(log) + [ok]
    {
      ok, facts := false, [];
      if cursor >= |orders| {
        return;
      }
      if c.verb.GetRecord? {
        if c.service.Some? && c.service.value in records {
          ok, facts := true, [Ledger.Report(c.service.value, RecordFact(records[c.service.value]))];
        }
        return;
      }
      var o := orders[cursor];
      assert Legal(o, records.Keys);
      WorldStaysSound(records, o, c);
      if Mutation(o) {
        if c.verb == VerbOf(o) && c.service == Some(o.service) && c.value == ArgOf(o) {
          var rec := records[o.service];
          match o {
            case SetPort(_, port) => rec := rec.(port := port);
            case SetStatus(_, status) => rec := rec.(status := status);
            case AddDep(_, dep) => if dep !in rec.deps { rec := rec.(deps := Lex.Sort(rec.deps + [dep])); }
            case RemoveDep(_, dep) => rec := rec.(deps := Without(rec.deps, dep));
          }
          records := records[o.service := rec];
          ok := true;
          facts := [Ledger.Report(o.service, RecordFact(rec))];
        }
      } else {
        ok := c.verb.Answer? && AnswerIsRight(records, o, c.answer);
      }
      log := log + [ok];
      cursor := cursor + 1;
    }
  }

  lemma NamesDistinct()
    ensures forall i, j :: 0 <= i < j < |NAMES| ==> NAMES[i] != NAMES[j]
  {}
}
