/** The tool-fact ledger: one bounded object per tool under the domain, holding the latest fact per entity. */
module Ledger {
  import opened Domain
  import opened State
  import opened Sorting
  import opened ApplyFrame

  /** A fact a tool reports about a named thing. */
  datatype Report = Report(key: string, fact: Dict)

  /** A ledger key with the step it was last reported in; seeded entries carry no step and count as -1. */
  datatype Slot = Slot(key: string, step: int)

  predicate CleanChar(c: char) {
    'A' <= c <= 'Z' || 'a' <= c <= 'z' || '0' <= c <= '9' || c == '_' || c == '-'
  }

  function Cleaned(key: string): (r: string)
    ensures |r| == |key|
    ensures forall i :: 0 <= i < |key| ==> r[i] == if CleanChar(key[i]) then key[i] else '_'
  {
    seq(|key|, i requires 0 <= i < |key| => if CleanChar(key[i]) then key[i] else '_')
  }

  /** A legal path segment made of an arbitrary key. */
  function Sanitize(key: string): (r: string)
    ensures 0 < |r| <= 120 && forall c <- r :: CleanChar(c)
    ensures 0 < |key| <= 120 && (forall c <- key :: CleanChar(c)) ==> r == key
  {
    var cut := if |key| > 120 then Cleaned(key)[..120] else Cleaned(key);
    if cut == [] then "_" else cut
  }

  function EntryOf(fact: Dict, event: string, step: nat): Json {
    Obj(fact["_event" := Str(event)]["_step" := Num(step)])
  }

  function StepOf(entry: Json): int {
    if !(entry.Obj? && "_step" in entry.fields) then -1
    else
      match entry.fields["_step"]
      case Num(n) => n
      case Bool(b) => if b then 1 else 0
      case _ => -1
  }

  /** An entry whose age can be compared with a number; on any other the search for the oldest entries raises. */
  predicate Comparable(entry: Json) {
    entry.Obj? && ("_step" in entry.fields ==> entry.fields["_step"].Num? || entry.fields["_step"].Bool?)
  }

  /** The search for the oldest entries takes place, and meets an entry that it cannot compare. */
  predicate Raises(entries: Dict, facts: seq<Report>, cap: nat) {
    |entries.Keys + ReportedKeys(facts)| > cap && exists k <- entries ::
        k !in ReportedKeys(facts) && !Comparable(entries[k])
  }

  /** `existing[key] = {"_step": step}` on an insertion-ordered dictionary. */
  function Upsert(slots: seq<Slot>, key: string, step: int): seq<Slot> {
    if slots == [] then [Slot(key, step)]
    else if slots[0].key == key then [Slot(key, step)] + slots[1..]
    else [slots[0]] + Upsert(slots[1..], key, step)
  }

  function Existing(slots: seq<Slot>, facts: seq<Report>, step: int): seq<Slot> {
    if facts == [] then slots
    else Upsert(Existing(slots, facts[..|facts|-1], step), Sanitize(facts[|facts|-1].key), step)
  }

  function SetOps(tool: string, facts: seq<Report>, event: string, step: nat): seq<Op> {
    if facts == [] then []
    else
      var f := facts[|facts|-1];
      SetOps(tool, facts[..|facts|-1], event, step) + [SetPath([tool, Sanitize(f.key)], EntryOf(f.fact, event, step))]
  }

  function DeleteOps(tool: string, slots: seq<Slot>): seq<Op> {
    if slots == [] then [] else DeleteOps(tool, slots[..|slots|-1]) + [DeletePath([tool, slots[|slots|-1].key])]
  }

  function SlotStep(): Slot -> int {
    (s: Slot) => s.step
  }

  /** The oldest slots over the cap, oldest first. */
  function OldestOver(all: seq<Slot>, cap: nat): seq<Slot> {
    if |all| <= cap then [] else SortBy(all, SlotStep())[..|all| - cap]
  }

  function Victims(slots: seq<Slot>, facts: seq<Report>, step: int, cap: nat): seq<Slot> {
    OldestOver(Existing(slots, facts, step), cap)
  }

  function LedgerOps(tool: string, slots: seq<Slot>, facts: seq<Report>, cap: nat, event: string, step: nat): seq<Op> {
    if facts == [] then [] else DeleteOps(tool, Victims(slots, facts, step, cap)) + SetOps(tool, facts, event, step)
  }

  lemma {:induction false} DeletesEditDomain(tool: string, slots: seq<Slot>)
    ensures DomainOnly(DeleteOps(tool, slots))
    decreases |slots|
  {
    if slots != [] {
      DeletesEditDomain(tool, slots[..|slots|-1]);
    }
  }

  lemma {:induction false} SetsEditDomain(tool: string, facts: seq<Report>, event: string, step: nat)
    ensures DomainOnly(SetOps(tool, facts, event, step))
    decreases |facts|
  {
    if facts != [] {
      SetsEditDomain(tool, facts[..|facts|-1], event, step);
    }
  }

  lemma LedgerEditsDomain(tool: string, slots: seq<Slot>, facts: seq<Report>, cap: nat, event: string, step: nat)
    ensures DomainOnly(LedgerOps(tool, slots, facts, cap, event, step))
  {
    DeletesEditDomain(tool, Victims(slots, facts, step, cap));
    SetsEditDomain(tool, facts, event, step);
  }

  // ---- the ledger as a map ----

  /** The ledger object of a tool; a missing or null one is empty. */
  function Entries(domain: Dict, tool: string): Dict {
    if tool in domain && domain[tool].Obj? then domain[tool].fields else map[]
  }

  /** Nothing but a ledger object (or nothing at all) sits under the tool's name. */
  predicate LedgerShaped(domain: Dict, tool: string) {
    tool in domain ==> domain[tool].Obj? || domain[tool].Null?
  }

  /** The iteration order of the ledger dictionary: any enumeration of its keys. */
  predicate Enumerates(order: seq<string>, entries: Dict) {
    (forall i, j :: 0 <= i < j < |order| ==> order[i] != order[j]) && (set k <- order) == entries.Keys
  }

  function SlotsOf(entries: Dict, order: seq<string>): (r: seq<Slot>)
    requires forall k <- order :: k in entries
    ensures |r| == |order|
    ensures forall i :: 0 <= i < |order| ==> r[i] == Slot(order[i], StepOf(entries[order[i]]))
  {
    seq(|order|, i requires 0 <= i < |order| => Slot(order[i], StepOf(entries[order[i]])))
  }

  function ReportedKeys(facts: seq<Report>): set<string> {
    set f <- facts :: Sanitize(f.key)
  }

  /** The reported facts as ledger entries; of two facts under one key the later wins. */
  function Latest(facts: seq<Report>, event: string, step: nat): (m: Dict)
    ensures m.Keys == ReportedKeys(facts)
  {
    if facts == [] then map[]
    else
      var f := facts[|facts|-1];
      assert facts == facts[..|facts|-1] + [f];
      Latest(facts[..|facts|-1], event, step)[Sanitize(f.key) := EntryOf(f.fact, event, step)]
  }

  function Keys(slots: seq<Slot>): set<string> {
    set s <- slots :: s.key
  }

  predicate Distinct(slots: seq<Slot>) {
    forall i, j :: 0 <= i < j < |slots| ==> slots[i].key != slots[j].key
  }

  lemma {:induction false} DistinctCardinality(slots: seq<Slot>)
    requires Distinct(slots)
    ensures |Keys(slots)| == |slots|
  {
    if slots != [] {
      var n := |slots| - 1;
      DistinctCardinality(slots[..n]);
      assert slots == slots[..n] + [slots[n]];
      assert Keys(slots) == Keys(slots[..n]) + {slots[n].key};
    }
  }

  lemma {:induction false} UpsertNew(slots: seq<Slot>, key: string, step: int)
    requires key !in Keys(slots)
    ensures Upsert(slots, key, step) == slots + [Slot(key, step)]
  {
    if slots != [] {
      assert slots[0].key in Keys(slots) && forall s <- slots[1..] :: s in slots;
      UpsertNew(slots[1..], key, step);
    }
  }

  lemma {:induction false} UpsertAt(slots: seq<Slot>, i: nat, step: int)
    requires i < |slots| && Distinct(slots)
    ensures Upsert(slots, slots[i].key, step) == slots[i := Slot(slots[i].key, step)]
  {
    var x := Slot(slots[i].key, step);
    if i == 0 {
      assert slots[i := x] == [x] + slots[1..];
    } else {
      var rest := slots[1..];
      assert slots[0].key != slots[i].key && rest[i-1] == slots[i];
      assert Distinct(rest) by {
        assert forall j :: 0 <= j < |rest| ==> rest[j] == slots[j+1];
      }
      UpsertAt(rest, i - 1, step);
      assert slots[i := x] == [slots[0]] + rest[i-1 := x];
    }
  }

  /** `r` is `slots` with the reported keys brought to `step`: old keys keep their place, new ones follow. */
  ghost predicate Merged(slots: seq<Slot>, reported: set<string>, step: int, r: seq<Slot>) {
    && |slots| <= |r|
    && (forall i :: 0 <= i < |slots| ==>
        r[i] == Slot(slots[i].key, if slots[i].key in reported then step else slots[i].step))
    && (forall i :: |slots| <= i < |r| ==> r[i].step == step && r[i].key in reported)
  }

  lemma MergedAtKnownKey(slots: seq<Slot>, reported: set<string>, step: int, r: seq<Slot>, i: nat)
    requires Merged(slots, reported, step, r) && Distinct(r) && i < |r|
    ensures Merged(slots, reported + {r[i].key}, step, r[i := Slot(r[i].key, step)])
    ensures Distinct(r[i := Slot(r[i].key, step)])
  {
    var r' := r[i := Slot(r[i].key, step)];
    assert forall j :: 0 <= j < |r| ==> r'[j].key == r[j].key;
    forall j | 0 <= j < |slots|
      ensures r'[j] == Slot(slots[j].key, if slots[j].key in reported + {r[i].key} then step else slots[j].step)
    {
      assert r[j].key == slots[j].key;
    }
  }

  lemma MergedAtNewKey(slots: seq<Slot>, reported: set<string>, step: int, r: seq<Slot>, key: string)
    requires Merged(slots, reported, step, r) && Distinct(r) && key !in Keys(r)
    ensures Merged(slots, reported + {key}, step, r + [Slot(key, step)]) && Distinct(r + [Slot(key, step)])
    ensures Keys(r + [Slot(key, step)]) == Keys(r) + {key}
  {
    var r' := r + [Slot(key, step)];
    forall j | 0 <= j < |r| ensures r[j].key != key {
      assert r[j].key in Keys(r);
    }
    forall j | 0 <= j < |slots|
      ensures r'[j] == Slot(slots[j].key, if slots[j].key in reported + {key} then step else slots[j].step)
    {
      assert r[j].key == slots[j].key;
    }
    assert r'[|r|] in r';
    assert forall s <- r :: s in r';
  }

  lemma MergedOneMore(slots: seq<Slot>, reported: set<string>, step: int, r: seq<Slot>, key: string)
    requires Merged(slots, reported, step, r) && Distinct(r)
    ensures var r' := Upsert(r, key, step);
      Merged(slots, reported + {key}, step, r') && Distinct(r') && Keys(r') == Keys(r) + {key}
  {
    if key in Keys(r) {
      var i :| 0 <= i < |r| && r[i].key == key;
      UpsertAt(r, i, step);
      SameKeys(r, r[i := Slot(key, step)]);
      MergedAtKnownKey(slots, reported, step, r, i);
    } else {
      UpsertNew(r, key, step);
      MergedAtNewKey(slots, reported, step, r, key);
    }
  }

  lemma SameKeys(xs: seq<Slot>, ys: seq<Slot>)
    requires |xs| == |ys| && forall i :: 0 <= i < |xs| ==> xs[i].key == ys[i].key
    ensures Keys(xs) == Keys(ys)
  {
    forall x <- xs ensures x.key in Keys(ys) {
      var i :| 0 <= i < |xs| && xs[i] == x;
      assert ys[i] in ys;
    }
    forall y <- ys ensures y.key in Keys(xs) {
      var i :| 0 <= i < |ys| && ys[i] == y;
      assert xs[i] in xs;
    }
  }

  lemma ReportedKeysOneMore(before: seq<Report>, f: Report)
    ensures ReportedKeys(before + [f]) == ReportedKeys(before) + {Sanitize(f.key)}
  {}

  lemma {:induction false} ExistingShape(slots: seq<Slot>, facts: seq<Report>, step: int)
    requires Distinct(slots)
    ensures var r := Existing(slots, facts, step);
      Merged(slots, ReportedKeys(facts), step, r) && Distinct(r) && Keys(r) == Keys(slots) + ReportedKeys(facts)
    decreases |facts|
  {
    if facts != [] {
      hide Merged, Distinct;
      var before, f := facts[..|facts|-1], facts[|facts|-1];
      ExistingShape(slots, before, step);
      MergedOneMore(slots, ReportedKeys(before), step, Existing(slots, before, step), Sanitize(f.key));
      ReportedKeysOneMore(before, f);
      assert facts == before + [f];
      assert Keys(slots) + ReportedKeys(facts) == Keys(slots) + ReportedKeys(before) + {Sanitize(f.key)};
    }
  }

  // ---- the program ----

  /** One pass over the reported facts builds the set operations and the merged dictionary. */
  method MergeReports(tool: string, slots: seq<Slot>, facts: seq<Report>, event: string, step: nat)
    returns (sets: seq<Op>, existing: seq<Slot>)
    ensures sets == SetOps(tool, facts, event, step) && existing == Existing(slots, facts, step)
  {
    hide Sanitize, EntryOf, Upsert;
    sets, existing := [], slots;
    for i := 0 to |facts|
      invariant sets == SetOps(tool, facts[..i], event, step)
      invariant existing == Existing(slots, facts[..i], step)
    {
      assert facts[..i+1][..i] == facts[..i];
      var safe := Sanitize(facts[i].key);
      sets := sets + [SetPath([tool, safe], EntryOf(facts[i].fact, event, step))];
      existing := Upsert(existing, safe, step);
    }
    assert facts[..|facts|] == facts;
  }

  /** `_ledger_ops`; None stands for the exception on an entry that cannot be compared. */
  method BuildLedgerOps(tool: string, entries: Dict, order: seq<string>, facts: seq<Report>, cap: nat, event: string,
                        step: nat)
    returns (ops: Option<seq<Op>>)
    requires Enumerates(order, entries) && (forall k <- order :: k in entries) && facts != []
    ensures ops == if Raises(entries, facts, cap) then None
                   else Some(LedgerOps(tool, SlotsOf(entries, order), facts, cap, event, step))
  {
    hide Enumerates, Existing, SetOps, Comparable, ReportedKeys, SortBy;
    var sets, existing := MergeReports(tool, SlotsOf(entries, order), facts, event, step);
    ExistingSize(entries, order, facts, step);
    if |existing| <= cap {
      assert DeleteOps(tool, []) + sets == sets;
      return Some(sets);
    }
    if exists k <- entries :: k !in ReportedKeys(facts) && !Comparable(entries[k]) {
      return None;
    }
    var oldest := OldestOver(existing, cap);
    var deletes := DeleteEach(tool, oldest);
    return Some(deletes + sets);
  }

  method DeleteEach(tool: string, oldest: seq<Slot>) returns (deletes: seq<Op>)
    ensures deletes == DeleteOps(tool, oldest)
  {
    deletes := [];
    for i := 0 to |oldest|
      invariant deletes == DeleteOps(tool, oldest[..i])
    {
      assert oldest[..i+1][..i] == oldest[..i];
      deletes := deletes + [DeletePath([tool, oldest[i].key])];
    }
    assert oldest[..|oldest|] == oldest;
  }

  /** The merged dictionary has one slot per key, old or reported. */
  lemma ExistingSize(entries: Dict, order: seq<string>, facts: seq<Report>, step: int)
    requires Enumerates(order, entries) && forall k <- order :: k in entries
    ensures |Existing(SlotsOf(entries, order), facts, step)| == |entries.Keys + ReportedKeys(facts)|
  {
    var slots := SlotsOf(entries, order);
    SlotKeys(entries, order);
    ExistingShape(slots, facts, step);
    DistinctCardinality(Existing(slots, facts, step));
  }

  lemma SlotKeys(entries: Dict, order: seq<string>)
    requires Enumerates(order, entries) && forall k <- order :: k in entries
    ensures Distinct(SlotsOf(entries, order)) && Keys(SlotsOf(entries, order)) == entries.Keys
  {
    var slots := SlotsOf(entries, order);
    forall k <- entries ensures k in Keys(slots) {
      assert k in (set x <- order);
      var i :| 0 <= i < |order| && order[i] == k;
      assert slots[i] in slots;
    }
  }
}
