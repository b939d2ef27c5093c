/** Initial operations that fill a tool's ledger before the first step, and what reading an entry gives back. */
module Seeding {
  import opened Domain
  import opened State
  import opened ApplyFrame
  import opened Ledger
  import opened LedgerProofs

  /** Seeds are written without provenance. */
  function SeedOps(tool: string, seeds: seq<Report>): seq<Op> {
    if seeds == [] then []
    else SeedOps(tool, seeds[..|seeds|-1]) + [SetPath([tool, seeds[|seeds|-1].key], Obj(seeds[|seeds|-1].fact))]
  }

  function SeedDict(seeds: seq<Report>): Dict {
    if seeds == [] then map[]
    else SeedDict(seeds[..|seeds|-1])[seeds[|seeds|-1].key := Obj(seeds[|seeds|-1].fact)]
  }

  /** The seeds, and nothing else, end up under the tool's name. */
  lemma {:induction false} SeedOpsApply(d: Dict, tool: string, seeds: seq<Report>)
    requires LedgerShaped(d, tool) && seeds != []
    ensures DomainOnly(SeedOps(tool, seeds))
    ensures EditAll(d, SeedOps(tool, seeds)) == Ok(WithLedger(d, tool, Entries(d, tool) + SeedDict(seeds)))
    decreases |seeds|
  {
    var n := |seeds| - 1;
    var last := seeds[n];
    if n == 0 {
      SetStep(d, tool, [], Entries(d, tool), last.key, Obj(last.fact));
      assert SeedOps(tool, seeds) == [] + [SetPath([tool, last.key], Obj(last.fact))];
      assert Entries(d, tool)[last.key := Obj(last.fact)] == Entries(d, tool) + SeedDict(seeds);
    } else {
      SeedOpsApply(d, tool, seeds[..n]);
      SetStep(d, tool, SeedOps(tool, seeds[..n]), Entries(d, tool) + SeedDict(seeds[..n]), last.key, Obj(last.fact));
      UpdateOfUnion(Entries(d, tool), SeedDict(seeds[..n]), last.key, Obj(last.fact));
    }
  }

  lemma {:induction false} SeedAt(seeds: seq<Report>, i: nat)
    requires i < |seeds| && forall a, b :: 0 <= a < b < |seeds| ==> seeds[a].key != seeds[b].key
    ensures seeds[i].key in SeedDict(seeds) && SeedDict(seeds)[seeds[i].key] == Obj(seeds[i].fact)
    decreases |seeds|
  {
    if i < |seeds| - 1 {
      SeedAt(seeds[..|seeds|-1], i);
    }
  }

  predicate Seeded(seeds: seq<Report>, key: string) {
    exists s <- seeds :: s.key == key
  }

  lemma {:induction false} SeedKeys(seeds: seq<Report>)
    ensures forall k <- SeedDict(seeds) :: Seeded(seeds, k) && SeedDict(seeds)[k].Obj?
  {
    if seeds != [] {
      var n := |seeds| - 1;
      SeedKeys(seeds[..n]);
      assert seeds[n] in seeds;
      forall k | k in SeedDict(seeds) ensures Seeded(seeds, k) {
        if k != seeds[n].key {
          assert Seeded(seeds[..n], k);
          var s :| s in seeds[..n] && s.key == k;
          assert s in seeds;
        }
      }
    }
  }

  /** A fact that says nothing about provenance itself. */
  predicate Plain(fact: Dict) {
    "_event" !in fact && "_step" !in fact
  }

  lemma {:induction false} SeedsAreOld(seeds: seq<Report>)
    requires forall s <- seeds :: Plain(s.fact)
    ensures OlderThan(SeedDict(seeds), 0)
  {
    if seeds != [] {
      assert forall s <- seeds[..|seeds|-1] :: s in seeds;
      SeedsAreOld(seeds[..|seeds|-1]);
      assert seeds[|seeds|-1] in seeds;
    }
  }

  /** An entry without its provenance. */
  function Bare(entry: Json): Dict {
    if entry.Obj? then entry.fields - {"_event", "_step"} else map[]
  }

  lemma BareEntry(fact: Dict, event: string, step: nat)
    requires Plain(fact)
    ensures Bare(EntryOf(fact, event, step)) == fact && Bare(Obj(fact)) == fact
  {}

  /** With room for every key ever used nothing is evicted: the ledger after an update is the ledger before,
      overwritten by the report. */
  lemma NothingEvicted(entries: Dict, after: Dict, b: Batch, cap: nat, keys: set<string>)
    requires Follows(entries, after, b, cap) && OlderThan(entries, b.step)
    requires entries.Keys + ReportedKeys(b.facts) <= keys && |keys| <= cap
    ensures after.Keys == entries.Keys + ReportedKeys(b.facts) && OlderThan(after, b.step + 1)
    ensures forall k <- after ::
      after[k] == if k in ReportedKeys(b.facts) then Latest(b.facts, b.event, b.step)[k] else entries[k]
  {
    hide LedgerAfter, Latest, Enumerates, ReportedKeys, StepOf;
    Subset(ReportedKeys(b.facts), keys);
    Subset(entries.Keys + ReportedKeys(b.facts), keys);
    var order: seq<string> :| Enumerates(order, entries) && (forall k <- order :: k in entries)
      && after == LedgerAfter(entries, order, b.facts, cap, b.event, b.step);
    UpdateKeepsLatest(entries, order, b.facts, cap, b.event, b.step);
    LatestSteps(b.facts, b.event, b.step);
    NotOlder(entries, after, Latest(b.facts, b.event, b.step), b.step);
  }

  lemma LatestOfOne(r: Report, event: string, step: nat)
    ensures ReportedKeys([r]) == {Sanitize(r.key)}
    ensures Latest([r], event, step) == map[Sanitize(r.key) := EntryOf(r.fact, event, step)]
  {
    assert [r][..0] == [];
  }

  lemma LatestOfTwo(r: Report, q: Report, event: string, step: nat)
    requires Sanitize(r.key) != Sanitize(q.key)
    ensures ReportedKeys([r, q]) == {Sanitize(r.key), Sanitize(q.key)}
    ensures Latest([r, q], event, step)
         == map[Sanitize(r.key) := EntryOf(r.fact, event, step), Sanitize(q.key) := EntryOf(q.fact, event, step)]
  {
    LatestOfOne(r, event, step);
    assert [r, q][..1] == [r];
  }

  /** One reported fact, under a key that needs no cleaning. */
  lemma OneReport(entries: Dict, after: Dict, r: Report, event: string, step: nat, cap: nat, keys: set<string>)
    requires Follows(entries, after, Batch([r], event, step), cap) && OlderThan(entries, step)
    requires Sanitize(r.key) == r.key
    requires entries.Keys + {r.key} <= keys && |keys| <= cap
    ensures after.Keys == entries.Keys + {r.key} && OlderThan(after, step + 1)
    ensures forall k <- after :: after[k] == if k == r.key then EntryOf(r.fact, event, step) else entries[k]
  {
    hide Follows, Sanitize, OlderThan, EntryOf;
    LatestOfOne(r, event, step);
    NothingEvicted(entries, after, Batch([r], event, step), cap, keys);
  }

  /** Two reported facts, under different keys that need no cleaning. */
  /** Two entries are new or rewritten, and the others stay. */
  predicate BothRecorded(entries: Dict, after: Dict, one: string, first: Json, other: string, second: Json) {
    && after.Keys == entries.Keys + {one, other}
    && forall k <- after :: after[k] == if k == one then first else if k == other then second else entries[k]
  }

  lemma TwoReports(entries: Dict, after: Dict, r: Report, q: Report, event: string, step: nat, cap: nat,
                   keys: set<string>)
    requires Follows(entries, after, Batch([r, q], event, step), cap) && OlderThan(entries, step)
    requires Sanitize(r.key) == r.key && Sanitize(q.key) == q.key && r.key != q.key
    requires entries.Keys + {r.key, q.key} <= keys && |keys| <= cap
    ensures OlderThan(after, step + 1)
    ensures BothRecorded(entries, after, r.key, EntryOf(r.fact, event, step), q.key, EntryOf(q.fact, event, step))
  {
    hide Follows, Sanitize, OlderThan, EntryOf, ReportedKeys;
    LatestOfTwo(r, q, event, step);
    hide Latest;
    NothingEvicted(entries, after, Batch([r, q], event, step), cap, keys);
  }

  /** How the ledger follows a call: not at all if nothing was reported, else by one update. */
  ghost predicate LedgerTurn(entries: Dict, after: Dict, facts: seq<Report>, event: string, step: nat, cap: nat) {
    if facts == [] then after == entries else Follows(entries, after, Batch(facts, event, step), cap)
  }

  lemma OlderLater(m: Dict, step: nat, later: nat)
    requires OlderThan(m, step) && step <= later
    ensures OlderThan(m, later)
  {}

  lemma NotOlder(entries: Dict, after: Dict, latest: Dict, step: nat)
    requires OlderThan(entries, step) && (forall k <- latest :: StepOf(latest[k]) == step)
    requires after.Keys == entries.Keys + latest.Keys
    requires forall k <- after :: after[k] == if k in latest then latest[k] else entries[k]
    ensures OlderThan(after, step + 1)
  {
    hide StepOf;
  }

  lemma {:induction false} Subset(a: set<string>, b: set<string>)
    requires a <= b
    ensures |a| <= |b|
    decreases |a|
  {
    if a != {} {
      var x :| x in a;
      Subset(a - {x}, b - {x});
    }
  }
}
