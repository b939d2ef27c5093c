/** The registry ledger against the true records, and the scripted policy that reads it. */
module RegistryScript {
  import opened Domain
  import opened Words
  import opened Registry
  import opened Seeding
  import Ledger
  import LedgerProofs
  import ApplyFrame
  import Text
  import Lex = Order

  const TOOL := "registry"

  predicate RecordAgrees(entries: Dict, rs: Records, name: string)
    requires name in rs
  {
    name in entries && Bare(entries[name]) == RecordFact(rs[name])
  }

  /** The ledger holds exactly the services, each with its true record. */
  predicate Agrees(entries: Dict, rs: Records) {
    entries.Keys == rs.Keys && forall n <- rs :: RecordAgrees(entries, rs, n)
  }

  /** Service names are words that the ledger takes as keys as they stand and that do not stand for an empty list. */
  predicate PlainName(s: string) {
    Word(s) && s !in NOTHING && Ledger.Sanitize(s) == s
  }

  predicate PlainNames(rs: Records) {
    forall n <- rs :: PlainName(n)
  }

  // ---- the initial ledger ----

  function Seeds(rs: Records, names: seq<string>): seq<Ledger.Report>
    requires forall n <- names :: n in rs
  {
    if names == [] then []
    else Seeds(rs, names[..|names|-1]) + [Ledger.Report(names[|names|-1], RecordFact(rs[names[|names|-1]]))]
  }

  lemma {:induction false} SeedsArePlain(rs: Records, names: seq<string>)
    requires forall n <- names :: n in rs
    ensures forall s <- Seeds(rs, names) :: Plain(s.fact)
    decreases |names|
  {
    if names != [] {
      SeedsArePlain(rs, names[..|names|-1]);
    }
  }

  lemma {:induction false} SeedsAgree(rs: Records, names: seq<string>)
    requires forall n <- names :: n in rs
    ensures var d := SeedDict(Seeds(rs, names));
      d.Keys == (set n <- names) && forall n <- names :: d[n] == Obj(RecordFact(rs[n]))
    decreases |names|
  {
    hide RecordFact;
    if names != [] {
      var n := |names| - 1;
      assert names == names[..n] + [names[n]];
      SeedsAgree(rs, names[..n]);
      assert Seeds(rs, names)[..|Seeds(rs, names[..n])|] == Seeds(rs, names[..n]);
    }
  }

  lemma SeedEntriesAgree(rs: Records, names: seq<string>)
    requires (forall n <- names :: n in rs) && (set n <- names) == rs.Keys
    ensures Agrees(SeedDict(Seeds(rs, names)), rs) && LedgerProofs.OlderThan(SeedDict(Seeds(rs, names)), 0)
  {
    hide RecordFact, Bare;
    SeedsAgree(rs, names);
    SeedsArePlain(rs, names);
    SeedsAreOld(Seeds(rs, names));
    forall n | n in rs ensures RecordAgrees(SeedDict(Seeds(rs, names)), rs, n) {
      assert n in names;
      BareSeed(rs[n]);
    }
  }

  lemma BareSeed(r: Record)
    ensures Bare(Obj(RecordFact(r))) == RecordFact(r)
  {
    BareEntry(RecordFact(r), "", 0);
  }

  /** The initial operations leave a domain whose ledger agrees with the records and is older than any step. */
  lemma InitialLedgerAgrees(rs: Records, names: seq<string>)
    requires names != [] && (forall n <- names :: n in rs) && (set n <- names) == rs.Keys
    ensures var ops := SeedOps(TOOL, Seeds(rs, names)); var entries := SeedDict(Seeds(rs, names));
      && ApplyFrame.DomainOnly(ops) && ApplyFrame.EditAll(map[], ops) == Ok(map[TOOL := Obj(entries)])
      && Agrees(entries, rs) && LedgerProofs.OlderThan(entries, 0)
  {
    hide Agrees, LedgerProofs.OlderThan, RecordFact, SeedOps, SeedDict, ApplyFrame.EditAll, ApplyFrame.DomainOnly;
    SeedEntriesAgree(rs, names);
    var seeds := Seeds(rs, names);
    SeedOpsApply(map[], TOOL, seeds);
    assert Ledger.Entries(map[], TOOL) + SeedDict(seeds) == SeedDict(seeds);
  }

  // ---- one call ----

  /** Whatever an agent answers, right or wrong, the ledger tracks the true records, provided that they fit under the
      cap. */
  lemma LedgerTracksTheRecords(entries: Dict, after: Dict, rs: Records, o: Order, c: Call, event: string, step: nat,
                               cap: nat)
    requires Agrees(entries, rs) && PlainNames(rs) && o.service in rs && |rs| <= cap
    requires LedgerProofs.OlderThan(entries, step)
    requires LedgerTurn(entries, after, Facts(World(rs, o, c), o, Correct(rs, o, c)), event, step, cap)
    ensures Agrees(after, World(rs, o, c)) && LedgerProofs.OlderThan(after, step + 1)
  {
    hide Ledger.Sanitize, Bare, Word, AnswerIsRight, LedgerProofs.Follows, RecordFact, Mutated, Ledger.EntryOf, Correct;
    var rs' := World(rs, o, c);
    if Mutation(o) && Correct(rs, o, c) {
      var r := Ledger.Report(o.service, RecordFact(rs'[o.service]));
      assert PlainName(o.service);
      assert |rs.Keys| == |rs|;
      OneReport(entries, after, r, event, step, cap, rs.Keys);
      BareRecord(rs'[o.service], event, step);
      assert forall n <- rs :: n != o.service ==> RecordAgrees(entries, rs, n);
    }
  }

  /** So it does for reading a record, which consumes no order. */
  lemma LedgerTracksReads(entries: Dict, after: Dict, rs: Records, service: string, event: string, step: nat, cap: nat)
    requires Agrees(entries, rs) && PlainNames(rs) && service in rs && |rs| <= cap
    requires LedgerProofs.OlderThan(entries, step)
    requires LedgerTurn(entries, after, [Ledger.Report(service, RecordFact(rs[service]))], event, step, cap)
    ensures Agrees(after, rs) && LedgerProofs.OlderThan(after, step + 1)
  {
    hide Ledger.Sanitize, Bare, Word, LedgerProofs.Follows;
    assert PlainName(service) && |rs.Keys| == |rs|;
    OneReport(entries, after, Ledger.Report(service, RecordFact(rs[service])), event, step, cap, rs.Keys);
    hide RecordFact, Ledger.EntryOf;
    BareRecord(rs[service], event, step);
    assert forall n <- rs :: n != service ==> RecordAgrees(entries, rs, n);
  }

  lemma BareRecord(r: Record, event: string, step: nat)
    ensures Bare(Ledger.EntryOf(RecordFact(r), event, step)) == RecordFact(r)
  {
    BareEntry(RecordFact(r), event, step);
  }

  // ---- the scripted policy ----

  function PortOf(entry: Json): int {
    NumAt(Bare(entry), ["port"])
  }

  function StatusOf(entry: Json): string {
    var d := Bare(entry);
    if "status" in d && d["status"].Str? then d["status"].s else ""
  }

  function Texts(xs: seq<Json>): (r: seq<string>)
    ensures |r| == |xs| && forall i :: 0 <= i < |xs| ==> r[i] == if xs[i].Str? then xs[i].s else ""
  {
    seq(|xs|, i requires 0 <= i < |xs| => if xs[i].Str? then xs[i].s else "")
  }

  function DepsOf(entry: Json): seq<string> {
    var d := Bare(entry);
    if "deps" in d && d["deps"].List? then Texts(d["deps"].items) else []
  }

  lemma EntryReads(entry: Json, r: Record)
    requires Bare(entry) == RecordFact(r)
    ensures PortOf(entry) == r.port && StatusOf(entry) == r.status && DepsOf(entry) == r.deps
  {
    assert Texts(Strings(r.deps)) == r.deps;
  }

  /** Repeats a mutation; answers a query from the ledger. None stands for the exception on an unknown service. */
  function Script(entries: Dict, o: Order): Option<Call> {
    if Mutation(o) then Some(Call(VerbOf(o), Some(o.service), ArgOf(o), ""))
    else if o.AskDependents? then
      Some(Call(Answer, None, "", Shown(Lex.SortedSet(set n <- entries | o.service in DepsOf(entries[n])))))
    else if o.service !in entries then None
    else
      var e := entries[o.service];
      match o
      case AskPort(_) => if PortOf(e) < 0 then None else Some(Call(Answer, None, "", Text.Dec(PortOf(e))))
      case AskStatus(_) => Some(Call(Answer, None, "", StatusOf(e)))
      case _ => Some(Call(Answer, None, "", Shown(DepsOf(e))))
  }

  lemma DigitsAreAWord(n: nat)
    ensures Word(Text.Dec(n))
  {
    forall c | c in Text.Dec(n) ensures !Separator(c) {
      assert '0' <= c <= '9';
    }
  }

  lemma StatusIsPlain(s: string)
    requires s in STATUSES
    ensures Lower(Strip(s)) == s
  {
    assert Word(s);
    StripWord(s);
    LowerOfLower(s);
  }

  /** A sorted list of service names survives being shown and split. */
  lemma ListIsReadBack(xs: seq<string>, rs: Records)
    requires Lex.Sorted(xs) && PlainNames(rs) && forall x <- xs :: x in rs
    ensures Lex.Sort(Split(Shown(xs))) == xs
  {
    hide Ledger.Sanitize;
    forall x | x in xs ensures Word(x) {
      assert PlainName(x);
    }
    if |xs| == 1 {
      assert PlainName(xs[0]);
    }
    SplitUndoesShown(xs);
    Lex.SortOfSorted(xs);
  }

  lemma LedgerDependents(entries: Dict, rs: Records, service: string)
    requires Agrees(entries, rs)
    ensures (set n <- entries | service in DepsOf(entries[n])) == (set n <- rs | service in rs[n].deps)
  {
    hide RecordFact, Bare;
    forall n | n in rs ensures DepsOf(entries[n]) == rs[n].deps {
      assert RecordAgrees(entries, rs, n);
      EntryReads(entries[n], rs[n]);
    }
  }

  /** On an agreeing ledger the policy answers every order, and answers it correctly. */
  lemma ScriptIsCorrect(entries: Dict, rs: Records, o: Order)
    requires Agrees(entries, rs) && PlainNames(rs) && Sound(rs) && Legal(o, rs.Keys)
    ensures Script(entries, o).Some? && Correct(rs, o, Script(entries, o).value)
    ensures !Script(entries, o).value.verb.GetRecord?
  {
    hide PlainNames, Lex.Sorted, Lex.NoDuplicates, Lex.Sort, Lex.SortedSet, Shown, Split, Strip, Lower, Text.Dec;
    assert RecordAgrees(entries, rs, o.service);
    EntryReads(entries[o.service], rs[o.service]);
    hide RecordFact, Bare, PortOf, StatusOf, DepsOf;
    match o
    case AskPort(s) =>
      DigitsAreAWord(rs[s].port);
      StripWord(Text.Dec(rs[s].port));
    case AskStatus(s) => StatusIsPlain(rs[s].status);
    case AskDeps(s) => ListIsReadBack(rs[s].deps, rs);
    case AskDependents(s) =>
      LedgerDependents(entries, rs, s);
      DependentsInvertDeps(rs, s);
      ListIsReadBack(Dependents(rs, s), rs);
    case _ =>
  }

  // ---- the closed loop ----

  /** Ledger, records and score sheet between two orders. */
  datatype Moment = Moment(entries: Dict, rs: Records, log: seq<bool>)

  ghost predicate Turn(m: Moment, n: Moment, o: Order, event: string, step: nat, cap: nat) {
    var call := Script(m.entries, o);
    && o.service in m.rs && call.Some?
    && var ok := Correct(m.rs, o, call.value);
       && n.rs == World(m.rs, o, call.value) && n.log == m.log + [ok]
       && LedgerTurn(m.entries, n.entries, Facts(n.rs, o, ok), event, step, cap)
  }

  ghost predicate AllGood(m: Moment, keys: set<string>, step: nat) {
    && Agrees(m.entries, m.rs) && PlainNames(m.rs) && Sound(m.rs) && m.rs.Keys == keys
    && LedgerProofs.OlderThan(m.entries, step) && (forall ok <- m.log :: ok)
  }

  lemma TurnStaysGood(m: Moment, n: Moment, keys: set<string>, o: Order, event: string, step: nat, cap: nat)
    requires AllGood(m, keys, step) && Legal(o, keys) && |keys| <= cap && Turn(m, n, o, event, step, cap)
    ensures AllGood(n, keys, step + 1) && |n.log| == |m.log| + 1
  {
    hide Agrees, PlainName, Sound, Legal, LedgerTurn, Script, Correct, World, Facts, LedgerProofs.OlderThan;
    ScriptIsCorrect(m.entries, m.rs, o);
    var call := Script(m.entries, o).value;
    assert |m.rs| == |m.rs.Keys|;
    LedgerTracksTheRecords(m.entries, n.entries, m.rs, o, call, event, step, cap);
    WorldStaysSound(m.rs, o, call);
  }

  /** A whole benchmark: from the seeded ledger, one turn per order, at growing steps. */
  ghost predicate Benchmark(ms: seq<Moment>, rs: Records, names: seq<string>, orders: seq<Order>, events: seq<string>,
                            steps: seq<nat>, cap: nat)
    requires forall n <- names :: n in rs
  {
    && 0 < |ms| <= |orders| + 1 && |events| == |steps| == |orders|
    && ms[0] == Moment(SeedDict(Seeds(rs, names)), rs, [])
    && (forall i, j :: 0 <= i < j < |steps| ==> steps[i] < steps[j])
    && forall i :: 0 <= i < |ms| - 1 ==> Turn(ms[i], ms[i+1], orders[i], events[i], steps[i], cap)
  }

  /** The scripted policy is never at a loss and always right: over every order stream the ledger equals the true
      records after any number of turns, every answer so far was correct and so is the next. */
  lemma {:induction false} ScriptIsPerfect(ms: seq<Moment>, rs: Records, names: seq<string>, orders: seq<Order>,
                                           events: seq<string>, steps: seq<nat>, cap: nat, n: nat)
    requires names != [] && (forall x <- names :: x in rs) && (set x <- names) == rs.Keys
    requires Sound(rs) && PlainNames(rs) && |rs| <= cap && forall o <- orders :: Legal(o, rs.Keys)
    requires Benchmark(ms, rs, names, orders, events, steps, cap) && n < |ms|
    ensures Agrees(ms[n].entries, ms[n].rs) && ms[n].rs.Keys == rs.Keys && |ms[n].log| == n
    ensures forall ok <- ms[n].log :: ok
    ensures n < |orders| && orders[n].service in ms[n].rs ==>
      var call := Script(ms[n].entries, orders[n]); call.Some? && Correct(ms[n].rs, orders[n], call.value)
    ensures n < |orders| ==> orders[n].service in ms[n].rs
  {
    BenchmarkStaysGood(ms, rs, names, orders, events, steps, cap, n);
    hide Agrees, Sound, Script, Correct, Benchmark, PlainNames, LedgerProofs.OlderThan;
    if n < |orders| {
      assert Legal(orders[n], rs.Keys);
      ScriptIsCorrect(ms[n].entries, ms[n].rs, orders[n]);
    }
  }

  lemma {:induction false} BenchmarkStaysGood(ms: seq<Moment>, rs: Records, names: seq<string>, orders: seq<Order>,
                                              events: seq<string>, steps: seq<nat>, cap: nat, n: nat)
    requires names != [] && (forall x <- names :: x in rs) && (set x <- names) == rs.Keys
    requires Sound(rs) && PlainNames(rs) && |rs| <= cap && forall o <- orders :: Legal(o, rs.Keys)
    requires Benchmark(ms, rs, names, orders, events, steps, cap) && n < |ms|
    ensures AllGood(ms[n], rs.Keys, if n == 0 then 0 else steps[n-1] + 1) && |ms[n].log| == n
    decreases n
  {
    hide Agrees, Sound, PlainNames, Legal, Turn;
    if n == 0 {
      InitialLedgerAgrees(rs, names);
    } else {
      hide LedgerProofs.OlderThan;
      var k := n - 1;
      BenchmarkStaysGood(ms, rs, names, orders, events, steps, cap, k);
      var step := if k == 0 then 0 else steps[k-1] + 1;
      OlderLater(ms[k].entries, step, steps[k]);
      assert Turn(ms[k], ms[k+1], orders[k], events[k], steps[k], cap) && Legal(orders[k], rs.Keys);
      assert |rs.Keys| == |rs|;
      TurnStaysGood(ms[k], ms[n], rs.Keys, orders[k], events[k], steps[k], cap);
    }
  }

  lemma LowerCaseIsPlain(s: string)
    requires LowerCase(s) && 0 < |s| <= 20 && s != "none"
    ensures PlainName(s)
  {
    assert s in NOTHING ==> s == "-" || s == "None" || s == "[]";
    assert !LowerCase("-") && !LowerCase("None") && !LowerCase("[]") by {
      assert '-' in "-" && 'N' in "None" && '[' in "[]";
    }
    forall c | c in s ensures Ledger.CleanChar(c) && !Separator(c) {}
  }

  lemma NamesAreLowerCase(i: nat)
    requires i < |NAMES|
    ensures LowerCase(NAMES[i]) && 0 < |NAMES[i]| <= 20 && NAMES[i] != "none"
  {
    assert NAMES[i][0] != 'n' || NAMES[i] == "notify";
  }

  /** The catalogue's service names meet what is asked of names. */
  lemma CatalogueNamesArePlain()
    ensures forall x <- NAMES :: PlainName(x)
  {
    forall i | 0 <= i < |NAMES| ensures PlainName(NAMES[i]) {
      NamesAreLowerCase(i);
      LowerCaseIsPlain(NAMES[i]);
    }
  }
}
