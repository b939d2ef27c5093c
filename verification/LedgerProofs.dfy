/** What a ledger update does to the domain, when its patch is refused, and what it refines over a whole run. */
module LedgerProofs {
  import opened Domain
  import opened State
  import opened Sorting
  import opened ApplyFrame
  import opened Ledger
  import Apply

  // ---- the operations, applied ----

  lemma {:induction false} EditAllAppend(d: Dict, xs: seq<Op>, ys: seq<Op>)
    requires DomainOnly(xs) && DomainOnly(ys)
    ensures EditAll(d, xs + ys) == match EditAll(d, xs) case Err(c) => Err(c) case Ok(d1) => EditAll(d1, ys)
    decreases |ys|
  {
    if ys == [] {
      assert xs + ys == xs;
    } else {
      assert (xs + ys)[..|xs + ys| - 1] == xs + ys[..|ys|-1];
      EditAllAppend(d, xs, ys[..|ys|-1]);
    }
  }

  lemma EditAllSnoc(d: Dict, ops: seq<Op>, op: Op)
    requires DomainOnly(ops) && (op.SetPath? || op.DeletePath?)
    ensures DomainOnly(ops + [op])
    ensures EditAll(d, ops + [op]) == match EditAll(d, ops) case Err(c) => Err(c) case Ok(d1) => EditOp(d1, op)
  {
    assert (ops + [op])[..|ops|] == ops;
  }

  /** The domain once the ledger object of a tool has become `m`. */
  function WithLedger(d: Dict, tool: string, m: Dict): Dict {
    d[tool := Obj(m)]
  }

  lemma SetStep(d: Dict, tool: string, before: seq<Op>, m: Dict, key: string, v: Json)
    requires LedgerShaped(d, tool) && DomainOnly(before)
    requires EditAll(d, before) == Ok(WithLedger(d, tool, m)) || (before == [] && m == Entries(d, tool))
    ensures DomainOnly(before + [SetPath([tool, key], v)])
    ensures EditAll(d, before + [SetPath([tool, key], v)]) == Ok(WithLedger(d, tool, m[key := v]))
  {
    EditAllSnoc(d, before, SetPath([tool, key], v));
    var d1 := EditAll(d, before).value;
    SetOneEntry(d1, tool, key, v);
    assert Entries(d1, tool) == m;
    assert WithLedger(d1, tool, m[key := v]) == WithLedger(d, tool, m[key := v]);
  }

  lemma UpdateOfUnion(a: Dict, b: Dict, key: string, v: Json)
    ensures (a + b)[key := v] == a + b[key := v]
  {}

  lemma {:induction false} SetOpsApply(d: Dict, tool: string, facts: seq<Report>, event: string, step: nat)
    requires LedgerShaped(d, tool) && facts != []
    ensures DomainOnly(SetOps(tool, facts, event, step))
    ensures EditAll(d, SetOps(tool, facts, event, step))
      == Ok(WithLedger(d, tool, Entries(d, tool) + Latest(facts, event, step)))
    decreases |facts|
  {
    var n := |facts| - 1;
    var m := Entries(d, tool) + Latest(facts[..n], event, step);
    if n > 0 {
      SetOpsApply(d, tool, facts[..n], event, step);
    } else {
      assert m == Entries(d, tool);
    }
    var key, v := Sanitize(facts[n].key), EntryOf(facts[n].fact, event, step);
    SetStep(d, tool, SetOps(tool, facts[..n], event, step), m, key, v);
    UpdateOfUnion(Entries(d, tool), Latest(facts[..n], event, step), key, v);
  }

  lemma SetOneEntry(d: Dict, tool: string, key: string, v: Json)
    requires LedgerShaped(d, tool)
    ensures Edit(d, [tool, key], Set(v)) == Ok(d[tool := Obj(Entries(d, tool)[key := v])])
  {
    assert [tool, key][1..] == [key];
  }

  lemma DeleteOneEntry(d: Dict, tool: string, key: string)
    requires LedgerShaped(d, tool)
    ensures Edit(d, [tool, key], Delete) == if key in Entries(d, tool)
      then Ok(d[tool := Obj(Entries(d, tool) - {key})]) else Err(NotFound)
  {
    assert [tool, key][1..] == [key];
  }

  lemma LastKey(slots: seq<Slot>)
    requires Distinct(slots) && slots != []
    ensures Keys(slots) == Keys(slots[..|slots|-1]) + {slots[|slots|-1].key}
    ensures slots[|slots|-1].key !in Keys(slots[..|slots|-1])
  {
    assert slots == slots[..|slots|-1] + [slots[|slots|-1]];
  }

  lemma DeleteStep(d: Dict, tool: string, before: seq<Op>, gone: set<string>, key: string)
    requires LedgerShaped(d, tool) && DomainOnly(before) && key !in gone
    requires EditAll(d, before) == Ok(WithLedger(d, tool, Entries(d, tool) - gone)) || (before == [] && gone == {})
    ensures DomainOnly(before + [DeletePath([tool, key])])
    ensures EditAll(d, before + [DeletePath([tool, key])])
         == if key in Entries(d, tool) then Ok(WithLedger(d, tool, Entries(d, tool) - (gone + {key})))
             else Err(NotFound)
  {
    hide Edit, DomainOnly;
    EditAllSnoc(d, before, DeletePath([tool, key]));
    var d1 := EditAll(d, before).value;
    DeleteOneEntry(d1, tool, key);
    assert Entries(d1, tool) == Entries(d, tool) - gone;
    var m := Entries(d, tool) - (gone + {key});
    assert Entries(d, tool) - gone - {key} == m;
    assert WithLedger(d1, tool, m) == WithLedger(d, tool, m);
  }

  lemma {:induction false} DeleteOpsApply(d: Dict, tool: string, slots: seq<Slot>)
    requires LedgerShaped(d, tool) && Distinct(slots) && slots != []
    ensures DomainOnly(DeleteOps(tool, slots))
    ensures EditAll(d, DeleteOps(tool, slots))
         == if Keys(slots) <= Entries(d, tool).Keys then Ok(WithLedger(d, tool, Entries(d, tool) - Keys(slots)))
             else Err(NotFound)
    decreases |slots|
  {
    var n := |slots| - 1;
    LastKey(slots);
    var before := DeleteOps(tool, slots[..n]);
    if n > 0 {
      DeleteOpsApply(d, tool, slots[..n]);
    }
    if Keys(slots[..n]) <= Entries(d, tool).Keys {
      DeleteStep(d, tool, before, Keys(slots[..n]), slots[n].key);
    } else {
      EditAllSnoc(d, before, DeletePath([tool, slots[n].key]));
    }
  }

  // ---- who is evicted ----

  /** Old slots with keys `E`, all older than `step`, merged with a report of keys `R` into `all`. */
  ghost predicate Merge(E: set<string>, R: set<string>, slots: seq<Slot>, step: int, all: seq<Slot>) {
    && Distinct(slots) && Keys(slots) == E && (forall s <- slots :: s.step < step)
    && Merged(slots, R, step, all) && Distinct(all) && Keys(all) == E + R
  }

  lemma MergeSteps(E: set<string>, R: set<string>, slots: seq<Slot>, step: int, all: seq<Slot>)
    requires Merge(E, R, slots, step, all)
    ensures forall s <- all :: s.step <= step && (s.step < step <==> s.key !in R)
    ensures forall s <- all :: s.key !in R ==> s in slots
  {
    forall s <- all
      ensures s.step <= step && (s.step < step <==> s.key !in R) && (s.key !in R ==> s in slots)
    {
      var i :| 0 <= i < |all| && all[i] == s;
      if i < |slots| {
        assert slots[i] in slots;
      }
    }
  }

  function KeysBelow(slots: seq<Slot>, bound: int): set<string> {
    set s <- slots | s.step < bound :: s.key
  }

  lemma {:induction false} CountBelowIsCardinality(slots: seq<Slot>, bound: int)
    requires Distinct(slots)
    ensures CountBelow(slots, SlotStep(), bound) == |KeysBelow(slots, bound)|
    decreases |slots|
  {
    hide Distinct, KeysBelow;
    if slots == [] {
      NoKeysBelow(bound);
    } else {
      LastKeyBelow(slots, bound);
      CountBelowIsCardinality(slots[..|slots|-1], bound);
    }
  }

  lemma NoKeysBelow(bound: int)
    ensures KeysBelow([], bound) == {}
  {}

  lemma LastKeyBelow(slots: seq<Slot>, bound: int)
    requires Distinct(slots) && slots != []
    ensures var n := |slots| - 1;
      && Distinct(slots[..n]) && slots[n].key !in KeysBelow(slots[..n], bound)
      && KeysBelow(slots, bound) == KeysBelow(slots[..n], bound) + if slots[n].step < bound then {slots[n].key} else {}
  {
    var n := |slots| - 1;
    assert slots == slots[..n] + [slots[n]];
  }

  lemma MergeKeysBelow(E: set<string>, R: set<string>, slots: seq<Slot>, step: int, all: seq<Slot>)
    requires Merge(E, R, slots, step, all)
    ensures KeysBelow(all, step) == E - R
  {
    MergeSteps(E, R, slots, step, all);
    forall s <- all ensures s.key in E + R {
      assert s.key in Keys(all);
    }
    forall k | k in E - R ensures k in KeysBelow(all, step) {
      assert k in Keys(all);
    }
  }

  lemma {:induction false} DistinctMeansOnce(xs: seq<Slot>, x: Slot)
    requires Distinct(xs)
    ensures multiset(xs)[x] <= 1
    decreases |xs|
  {
    if xs != [] {
      var n := |xs| - 1;
      DistinctMeansOnce(xs[..n], x);
      assert xs == xs[..n] + [xs[n]];
      assert xs[n] !in xs[..n];
    }
  }

  lemma SortedSlots(all: seq<Slot>)
    requires Distinct(all)
    ensures var sorted := SortBy(all, SlotStep());
      && SortedBy(sorted, SlotStep()) && Distinct(sorted) && Keys(sorted) == Keys(all)
         && (forall s :: s in sorted <==> s in all)
  {
    var sorted := SortBy(all, SlotStep());
    SortByCorrect(all, SlotStep());
    forall s ensures s in sorted <==> s in all {
      assert s in sorted <==> s in multiset(sorted);
      assert s in all <==> s in multiset(all);
    }
    forall i, j | 0 <= i < j < |sorted| ensures sorted[i].key != sorted[j].key {
      assert sorted[i] in all && sorted[j] in all;
      if sorted[i] == sorted[j] {
        TwiceMeansTwo(sorted, i, j);
        DistinctMeansOnce(all, sorted[i]);
      }
    }
  }

  /** The victims are distinct members, as many as are over the cap, and none is younger than a slot that stays. */
  lemma OldestOverIsOldest(all: seq<Slot>, cap: nat)
    requires Distinct(all)
    ensures var v := OldestOver(all, cap);
      && Distinct(v) && |v| == (if |all| <= cap then 0 else |all| - cap)
      && (forall x <- v :: x in all)
      && (forall x <- v, y <- all :: y !in v ==> x.step <= y.step)
  {
    if |all| > cap {
      SortedSlots(all);
      hide SortBy, Keys;
      var sorted := SortBy(all, SlotStep());
      var k := |all| - cap;
      forall x, y | x in sorted[..k] && y in sorted && y !in sorted[..k] ensures x.step <= y.step {
        FirstAreOldest(sorted, k, x, y);
      }
    }
  }

  lemma FirstAreOldest(sorted: seq<Slot>, k: nat, x: Slot, y: Slot)
    requires SortedBy(sorted, SlotStep()) && k <= |sorted|
    requires x in sorted[..k] && y in sorted && y !in sorted[..k]
    ensures x.step <= y.step
  {
    var i :| 0 <= i < k && sorted[i] == x;
    assert sorted == sorted[..k] + sorted[k..];
    var j :| 0 <= j < |sorted| - k && sorted[k..][j] == y;
    assert SlotStep()(sorted[i]) <= SlotStep()(sorted[k + j]);
  }

  /** A report within the cap never evicts what it reports; one over the cap evicts everything it does not report. */
  lemma VictimsAgainstReport(E: set<string>, R: set<string>, slots: seq<Slot>, step: int, all: seq<Slot>, cap: nat)
    requires Merge(E, R, slots, step, all) && |all| > cap
    ensures |R| <= cap ==> Keys(OldestOver(all, cap)) !! R
    ensures |R| > cap ==> E - R <= Keys(OldestOver(all, cap))
  {
    var sorted := SortBy(all, SlotStep());
    var k := |all| - cap;
    MergeSteps(E, R, slots, step, all);
    MergeKeysBelow(E, R, slots, step, all);
    DistinctCardinality(all);
    SortedSlots(all);
    CountBelowSort(all, SlotStep(), step);
    CountBelowIsCardinality(all, step);
    SortedPrefixBelow(sorted, SlotStep(), step);
    UnionSize(E, R);
    PositionsAgainstReport(sorted, R, step, k, |E - R|);
    if |R| > cap {
      forall key | key in E - R ensures key in Keys(sorted[..k]) {
        assert key in Keys(sorted);
      }
    }
  }

  lemma UnionSize(E: set<string>, R: set<string>)
    ensures |E + R| == |E - R| + |R| == |E| + |R - E|
  {
    assert E + R == (E - R) + R;
    assert E + R == E + (R - E);
  }

  lemma PositionsAgainstReport(sorted: seq<Slot>, R: set<string>, step: int, k: nat, count: nat)
    requires k <= |sorted|
    requires forall i :: 0 <= i < |sorted| ==> (SlotStep()(sorted[i]) < step <==> i < count)
    requires forall s <- sorted :: s.step < step <==> s.key !in R
    ensures k <= count ==> Keys(sorted[..k]) !! R
    ensures k > count ==> forall s <- sorted :: s.key !in R ==> s.key in Keys(sorted[..k])
  {
    if k <= count {
      forall s <- sorted[..k] ensures s.key !in R {
        var i :| 0 <= i < k && sorted[i] == s;
        assert SlotStep()(sorted[i]) < step;
        assert s in sorted;
      }
    } else {
      forall s | s in sorted && s.key !in R ensures s.key in Keys(sorted[..k]) {
        var i :| 0 <= i < |sorted| && sorted[i] == s;
        assert SlotStep()(sorted[i]) < step;
        assert sorted[..k][i] in sorted[..k];
      }
    }
  }

  /** All victims are in the old ledger exactly when at most `cap` of the reported keys are new to it. */
  lemma VictimsPresentIff(E: set<string>, R: set<string>, slots: seq<Slot>, step: int, all: seq<Slot>, cap: nat)
    requires Merge(E, R, slots, step, all)
    ensures Keys(OldestOver(all, cap)) <= E <==> |R - E| <= cap
  {
    hide SortBy, SlotStep, Merged;
    DistinctCardinality(all);
    DistinctCardinality(slots);
    UnionSize(E, R);
    if |all| > cap {
      var n := |slots|;
      var k := |all| - cap;
      var A, B := all[..n], all[n..];
      OldKeysComeFirst(E, R, slots, step, all);
      if k <= n {
        assert SortBy(all, SlotStep())[..k] == SortBy(A, SlotStep())[..k];
        forall s <- SortBy(A, SlotStep())[..k] ensures s.key in E {
          assert s in SortBy(A, SlotStep());
          assert s.key in Keys(SortBy(A, SlotStep()));
        }
      } else {
        var victims := SortBy(all, SlotStep())[..k];
        assert victims[n] == all[n] && victims[n] in victims;
        assert all[n].key !in E;
      }
    }
  }

  /** Sorted by age, the slots of old keys come before those of new keys. */
  lemma OldKeysComeFirst(E: set<string>, R: set<string>, slots: seq<Slot>, step: int, all: seq<Slot>)
    requires Merge(E, R, slots, step, all)
    ensures var A, B := all[..|slots|], all[|slots|..];
      && SortBy(all, SlotStep()) == SortBy(A, SlotStep()) + B
      && Keys(SortBy(A, SlotStep())) == E
      && forall b <- B :: b.key !in E
  {
    var A, B := all[..|slots|], all[|slots|..];
    assert all == A + B;
    SameKeys(slots, A);
    SortedSlots(A);
    TailKeysNew(all, |slots|);
    SplitSteps(E, R, slots, step, all);
    SortByKeepsTail(A, B, SlotStep(), step);
  }

  lemma SplitSteps(E: set<string>, R: set<string>, slots: seq<Slot>, step: int, all: seq<Slot>)
    requires Merge(E, R, slots, step, all)
    ensures forall x <- all[..|slots|] :: SlotStep()(x) <= step
    ensures forall x <- all[|slots|..] :: SlotStep()(x) == step
  {
    MergeSteps(E, R, slots, step, all);
    assert forall x <- all[..|slots|] :: x in all;
  }

  lemma TailKeysNew(all: seq<Slot>, n: nat)
    requires Distinct(all) && n <= |all|
    ensures forall b <- all[n..] :: b.key !in Keys(all[..n])
  {
    forall b <- all[n..] ensures b.key !in Keys(all[..n]) {
      var j :| n <= j < |all| && all[j] == b;
      forall a <- all[..n] ensures a.key != b.key {
        var i :| 0 <= i < n && all[i] == a;
      }
    }
  }

  // ---- one update ----

  /** Where a ledger update starts: a ledger object written by earlier steps, its keys listed in some order. */
  predicate Ready(d: Dict, tool: string, order: seq<string>, step: int) {
    && LedgerShaped(d, tool) && Enumerates(order, Entries(d, tool))
    && forall k <- Entries(d, tool) :: StepOf(Entries(d, tool)[k]) < step
  }

  lemma EnumeratesMembers(order: seq<string>, entries: Dict)
    requires Enumerates(order, entries)
    ensures forall k <- order :: k in entries
  {
    forall k <- order ensures k in entries {
      assert k in (set k <- order);
    }
  }

  lemma ReadyMerge(entries: Dict, order: seq<string>, facts: seq<Report>, step: int)
    requires Enumerates(order, entries) && forall k <- entries :: StepOf(entries[k]) < step
    ensures forall k <- order :: k in entries
    ensures var slots := SlotsOf(entries, order);
      Merge(entries.Keys, ReportedKeys(facts), slots, step, Existing(slots, facts, step))
  {
    EnumeratesMembers(order, entries);
    var slots := SlotsOf(entries, order);
    forall k <- entries ensures k in Keys(slots) {
      assert k in (set k <- order);
      var i :| 0 <= i < |order| && order[i] == k;
      assert slots[i] in slots;
    }
    assert Keys(slots) == entries.Keys;
    ExistingShape(slots, facts, step);
  }

  lemma VictimsThenFacts(d: Dict, tool: string, victims: seq<Slot>, facts: seq<Report>, event: string, step: nat)
    requires LedgerShaped(d, tool) && Distinct(victims) && facts != []
    ensures DomainOnly(DeleteOps(tool, victims) + SetOps(tool, facts, event, step))
    ensures EditAll(d, DeleteOps(tool, victims) + SetOps(tool, facts, event, step))
         == if Keys(victims) <= Entries(d, tool).Keys
            then Ok(WithLedger(d, tool, Entries(d, tool) - Keys(victims) + Latest(facts, event, step)))
            else Err(NotFound)
  {
    var deletes, sets := DeleteOps(tool, victims), SetOps(tool, facts, event, step);
    SetOpsApply(d, tool, facts, event, step);
    if victims == [] {
      assert deletes + sets == sets;
      assert Entries(d, tool) - Keys(victims) == Entries(d, tool);
    } else {
      DeleteOpsApply(d, tool, victims);
      EditAllAppend(d, deletes, sets);
      if Keys(victims) <= Entries(d, tool).Keys {
        SetAfterLedger(d, tool, Entries(d, tool) - Keys(victims), facts, event, step);
      }
    }
  }

  lemma SetAfterLedger(d: Dict, tool: string, m: Dict, facts: seq<Report>, event: string, step: nat)
    requires facts != []
    ensures DomainOnly(SetOps(tool, facts, event, step))
    ensures EditAll(WithLedger(d, tool, m), SetOps(tool, facts, event, step))
      == Ok(WithLedger(d, tool, m + Latest(facts, event, step)))
  {
    LedgerTwice(d, tool, m, m + Latest(facts, event, step));
    SetOpsApply(WithLedger(d, tool, m), tool, facts, event, step);
  }

  lemma LedgerTwice(d: Dict, tool: string, m: Dict, m1: Dict)
    ensures LedgerShaped(WithLedger(d, tool, m), tool) && Entries(WithLedger(d, tool, m), tool) == m
    ensures WithLedger(WithLedger(d, tool, m), tool, m1) == WithLedger(d, tool, m1)
  {}

  /** The ledger patch is accepted exactly when at most `cap` reported keys are new to the ledger; it then drops the
      victims, writes the reported facts and leaves the rest of the ledger and of the domain alone. */
  lemma LedgerUpdate(d: Dict, tool: string, order: seq<string>, facts: seq<Report>, cap: nat, event: string, step: nat)
    requires Ready(d, tool, order, step) && facts != []
    ensures forall k <- order :: k in Entries(d, tool)
    ensures var entries := Entries(d, tool); var slots := SlotsOf(entries, order);
            var ops := LedgerOps(tool, slots, facts, cap, event, step);
      && DomainOnly(ops)
      && (EditAll(d, ops).Ok? <==> |ReportedKeys(facts) - entries.Keys| <= cap)
      && EditAll(d, ops) == if EditAll(d, ops).Err? then Err(NotFound)
                            else Ok(WithLedger(d, tool,
                                               entries - Keys(Victims(slots, facts, step, cap))
                                                   + Latest(facts, event, step)))
  {
    var entries := Entries(d, tool);
    ReadyMerge(entries, order, facts, step);
    var slots := SlotsOf(entries, order);
    var all := Existing(slots, facts, step);
    VictimsPresentIff(entries.Keys, ReportedKeys(facts), slots, step, all, cap);
    OldestOverIsOldest(all, cap);
    VictimsThenFacts(d, tool, Victims(slots, facts, step, cap), facts, event, step);
  }

  /** The ledger after an accepted update. */
  function LedgerAfter(entries: Dict, order: seq<string>, facts: seq<Report>, cap: nat, event: string, step: nat): Dict
    requires forall k <- order :: k in entries
  {
    entries - Keys(Victims(SlotsOf(entries, order), facts, step, cap)) + Latest(facts, event, step)
  }

  lemma CompactLeavesDomain(s: State, l: Apply.Limits)
    ensures Apply.Compact(s, l).0.domain == s.domain
  {}

  /** The ledger patch as `apply_patch` decides it: with more than `cap` new keys it is never applied; within the cap
      it is never refused for a missing path, and once applied the ledger is the updated one and the rest of the
      domain stays. */
  lemma LedgerPatchOutcome(s: State, tool: string, order: seq<string>, facts: seq<Report>, cap: nat, event: string,
                           step: nat,
                           pol: Apply.Policy, now: int)
    requires Ready(s.domain, tool, order, step) && facts != []
    ensures forall k <- order :: k in Entries(s.domain, tool)
    ensures var entries := Entries(s.domain, tool);
      var patch := Patch(s.version, LedgerOps(tool, SlotsOf(entries, order), facts, cap, event, step));
      var r := Apply.ApplyPatch(s, patch, None, pol, now);
      && (|ReportedKeys(facts) - entries.Keys| > cap ==> r.Refused?)
      && (|ReportedKeys(facts) - entries.Keys| <= cap && r.Refused?
          ==> r.code in {Terminal, LimitExceeded, SchemaViolation, InvalidState, TooLarge})
      && (r.Applied? ==>
          r.state.domain == WithLedger(s.domain, tool, LedgerAfter(entries, order, facts, cap, event, step)))
  {
    LedgerUpdate(s.domain, tool, order, facts, cap, event, step);
    hide ReportedKeys, Victims, Latest, LedgerOps, EditAll, LedgerShaped, Enumerates;
    var entries := Entries(s.domain, tool);
    var ops := LedgerOps(tool, SlotsOf(entries, order), facts, cap, event, step);
    DomainPatchOutcome(s, ops, pol, now);
    hide Apply.ApplyPatch;
  }

  lemma DomainPatchOutcome(s: State, ops: seq<Op>, pol: Apply.Policy, now: int)
    requires DomainOnly(ops)
    ensures var r := Apply.ApplyPatch(s, Patch(s.version, ops), None, pol, now);
      && (EditAll(s.domain, ops).Err? ==> r.Refused?)
      && (EditAll(s.domain, ops).Ok? && r.Refused?
          ==> r.code in {Terminal, LimitExceeded, SchemaViolation, InvalidState, TooLarge})
      && (r.Applied? ==> r.state.domain == EditAll(s.domain, ops).value)
  {
    DomainOpsOnlyEditDomain(s, ops, pol.norm, now);
    NoEvidenceAsked(ops);
    hide EditAll, Apply.ApplyOps, Apply.CheckEvidence, Apply.Finish, DomainOnly;
    if EditAll(s.domain, ops).Ok? {
      var done := Apply.ApplyOps(s, ops, pol.norm, now);
      FinishOutcome(done.state, done.archived, s.version, pol);
    }
  }

  lemma NoEvidenceAsked(ops: seq<Op>)
    requires DomainOnly(ops)
    ensures Apply.CheckEvidence(ops, None).None?
  {
    assert forall i :: 0 <= i < |ops| ==> ops[i] in ops;
  }

  lemma FinishOutcome(s: State, a: seq<Archived>, version: nat, pol: Apply.Policy)
    ensures var r := Apply.Finish(s, a, version, pol);
      && (r.Refused? ==> r.code in {LimitExceeded, SchemaViolation, InvalidState, TooLarge})
      && (r.Applied? ==> r.state.domain == s.domain)
  {
    CompactLeavesDomain(s, pol.limits);
    hide Apply.Compact, Apply.WithinLimits, Apply.IdsOk, Apply.StatementsOk;
  }

  /** The cap holds after an accepted update exactly when the report itself was within it; a larger report leaves
      precisely its own keys behind. */
  lemma CapKeptIff(entries: Dict, order: seq<string>, facts: seq<Report>, cap: nat, event: string, step: nat)
    requires Enumerates(order, entries) && forall k <- entries :: StepOf(entries[k]) < step
    ensures forall k <- order :: k in entries
    ensures var r := LedgerAfter(entries, order, facts, cap, event, step);
      && (|r| <= cap <==> |ReportedKeys(facts)| <= cap)
      && (|ReportedKeys(facts)| > cap ==> r.Keys == ReportedKeys(facts))
  {
    ReadyMerge(entries, order, facts, step);
    var E, R := entries.Keys, ReportedKeys(facts);
    var slots := SlotsOf(entries, order);
    var all := Existing(slots, facts, step);
    VictimCounts(E, R, slots, step, all, cap);
    var r := LedgerAfter(entries, order, facts, cap, event, step);
    assert r.Keys == E - Keys(OldestOver(all, cap)) + R;
  }

  lemma VictimCounts(E: set<string>, R: set<string>, slots: seq<Slot>, step: int, all: seq<Slot>, cap: nat)
    requires Merge(E, R, slots, step, all)
    ensures var after := E - Keys(OldestOver(all, cap)) + R;
      (|after| <= cap <==> |R| <= cap) && (|R| > cap ==> after == R)
  {
    var v := OldestOver(all, cap);
    OldestOverIsOldest(all, cap);
    DistinctCardinality(all);
    DistinctCardinality(v);
    if |all| > cap {
      VictimsAgainstReport(E, R, slots, step, all, cap);
      forall x <- v ensures x.key in E + R {
        assert x.key in Keys(all);
      }
      SizesOverCap(E, R, Keys(v), cap);
    } else {
      assert E - Keys(v) + R == E + R;
      UnionSize(E, R);
    }
  }

  lemma SizesOverCap(E: set<string>, R: set<string>, V: set<string>, cap: nat)
    requires V <= E + R && |E + R| > cap && |V| == |E + R| - cap
    requires if |R| <= cap then V !! R else E - R <= V
    ensures |E - V + R| <= cap <==> |R| <= cap
    ensures |R| > cap ==> E - V + R == R
  {
    if |R| <= cap {
      var rest := (E + R) - V;
      assert E - V + R == rest;
      assert E + R == rest + V;
      assert |E + R| == |rest| + |V|;
    } else {
      assert E - V + R == R;
    }
  }

  /** Within the cap: reported keys hold their latest fact, every other key that stays is untouched, nothing is
      evicted while there is room, and no evicted entry is younger than one that stays. */
  lemma UpdateKeepsLatest(entries: Dict, order: seq<string>, facts: seq<Report>, cap: nat, event: string, step: nat)
    requires Enumerates(order, entries) && forall k <- entries :: StepOf(entries[k]) < step
    requires |ReportedKeys(facts)| <= cap
    ensures forall k <- order :: k in entries
    ensures var r := LedgerAfter(entries, order, facts, cap, event, step); var R := ReportedKeys(facts);
      && R <= r.Keys <= entries.Keys + R
      && (forall k <- r :: r[k] == if k in R then Latest(facts, event, step)[k] else entries[k])
      && (|entries.Keys + R| <= cap ==> r.Keys == entries.Keys + R)
      && (forall e, k :: e in entries && e !in r && k in r && k !in R ==> StepOf(entries[e]) <= StepOf(entries[k]))
  {
    ReadyMerge(entries, order, facts, step);
    var E, R := entries.Keys, ReportedKeys(facts);
    var slots := SlotsOf(entries, order);
    var all := Existing(slots, facts, step);
    var victims := Victims(slots, facts, step, cap);
    assert |all| <= cap ==> Keys(victims) == {};
    assert |E + R| == |all| by { DistinctCardinality(all); }
    assert Keys(victims) !! R by {
      if |all| > cap {
        VictimsAgainstReport(E, R, slots, step, all, cap);
      }
    }
    AfterEviction(entries, Keys(victims), Latest(facts, event, step));
    forall e, k | e in entries && e in Keys(victims) && k in entries && k !in Keys(victims) && k !in R
      ensures StepOf(entries[e]) <= StepOf(entries[k])
    {
      VictimNotYounger(entries, order, R, step, all, cap, e, k);
    }
  }

  lemma AfterEviction(entries: Dict, V: set<string>, latest: Dict)
    requires V !! latest.Keys
    ensures var r := entries - V + latest;
      && latest.Keys <= r.Keys <= entries.Keys + latest.Keys
      && (forall k <- r :: r[k] == if k in latest then latest[k] else entries[k])
      && (forall e :: e in entries && e !in r <==> e in entries && e in V)
      && (forall k :: k in r && k !in latest <==> k in entries && k !in V && k !in latest)
      && (V == {} ==> r.Keys == entries.Keys + latest.Keys)
  {}

  lemma VictimNotYounger(entries: Dict, order: seq<string>, R: set<string>, step: int, all: seq<Slot>, cap: nat,
                         e: string, k: string)
    requires forall k <- order :: k in entries
    requires Merge(entries.Keys, R, SlotsOf(entries, order), step, all)
    requires e in entries && e in Keys(OldestOver(all, cap)) && e !in R
    requires k in entries && k !in Keys(OldestOver(all, cap)) && k !in R
    ensures StepOf(entries[e]) <= StepOf(entries[k])
  {
    OldestOverIsOldest(all, cap);
    var x :| x in OldestOver(all, cap) && x.key == e;
    assert k in Keys(all);
    var y :| y in all && y.key == k;
    OldSlotStep(entries, order, R, step, all, x);
    OldSlotStep(entries, order, R, step, all, y);
  }

  lemma OldSlotStep(entries: Dict, order: seq<string>, R: set<string>, step: int, all: seq<Slot>, s: Slot)
    requires forall k <- order :: k in entries
    requires Merge(entries.Keys, R, SlotsOf(entries, order), step, all) && s in all && s.key !in R
    ensures s.key in entries && s.step == StepOf(entries[s.key])
  {
    MergeSteps(entries.Keys, R, SlotsOf(entries, order), step, all);
  }

  // ---- whole runs ----

  /** One tool result: the facts reported, the event that carries them and the step they belong to. */
  datatype Batch = Batch(facts: seq<Report>, event: string, step: nat)

  /** The unbounded last-write map that the ledger summarises. */
  function LastWrites(seed: Dict, batches: seq<Batch>): Dict {
    if batches == [] then seed
    else
      var b := batches[|batches|-1];
      LastWrites(seed, batches[..|batches|-1]) + Latest(b.facts, b.event, b.step)
  }

  /** The ledger agrees with the last-write map on what it holds, and holds nothing older than what it lacks. */
  ghost predicate Refines(ledger: Dict, writes: Dict) {
    && ledger.Keys <= writes.Keys
    && (forall k <- ledger :: ledger[k] == writes[k])
    && (forall k, e :: k in ledger && e in writes && e !in ledger ==> StepOf(writes[e]) <= StepOf(writes[k]))
  }

  predicate OlderThan(m: Dict, step: int) {
    forall k <- m :: StepOf(m[k]) < step
  }

  lemma {:induction false} LatestSteps(facts: seq<Report>, event: string, step: nat)
    ensures forall k <- Latest(facts, event, step) :: StepOf(Latest(facts, event, step)[k]) == step
  {
    if facts != [] {
      LatestSteps(facts[..|facts|-1], event, step);
    }
  }

  lemma RefinesStep(ledger: Dict, writes: Dict, order: seq<string>, b: Batch, cap: nat)
    requires Refines(ledger, writes) && OlderThan(writes, b.step)
    requires Enumerates(order, ledger) && |ReportedKeys(b.facts)| <= cap
    ensures forall k <- order :: k in ledger
    ensures Refines(LedgerAfter(ledger, order, b.facts, cap, b.event, b.step),
                    writes + Latest(b.facts, b.event, b.step))
    ensures OlderThan(writes + Latest(b.facts, b.event, b.step), b.step + 1)
  {
    hide Enumerates, ReportedKeys, Latest, LedgerAfter, StepOf;
    LatestSteps(b.facts, b.event, b.step);
    UpdateKeepsLatest(ledger, order, b.facts, cap, b.event, b.step);
    RefinesUpdated(ledger, writes, Latest(b.facts, b.event, b.step),
                   LedgerAfter(ledger, order, b.facts, cap, b.event, b.step), b.step);
  }

  lemma RefinesUpdated(ledger: Dict, writes: Dict, latest: Dict, r: Dict, step: nat)
    requires Refines(ledger, writes) && OlderThan(writes, step) && forall k <- latest :: StepOf(latest[k]) == step
    requires latest.Keys <= r.Keys <= ledger.Keys + latest.Keys
    requires forall k <- r :: r[k] == if k in latest then latest[k] else ledger[k]
    requires forall e, k :: e in ledger && e !in r && k in r && k !in latest ==> StepOf(ledger[e]) <= StepOf(ledger[k])
    ensures Refines(r, writes + latest)
  {
    hide StepOf;
    forall k, e | k in r && e in writes && e !in r ensures StepOf(writes[e]) <= StepOf((writes + latest)[k]) {
      if k !in latest && e in ledger {
        assert StepOf(ledger[e]) <= StepOf(ledger[k]);
      }
    }
  }

  /** A run of ledger updates: each ledger follows from the one before by one batch, in some iteration order. */
  ghost predicate LedgerRun(ledgers: seq<Dict>, batches: seq<Batch>, cap: nat) {
    && |ledgers| == |batches| + 1
    && (forall i :: 0 <= i < |batches| ==> |ReportedKeys(batches[i].facts)| <= cap)
    && (forall i :: 0 <= i < |batches| ==> Follows(ledgers[i], ledgers[i+1], batches[i], cap))
  }

  ghost predicate Follows(before: Dict, after: Dict, b: Batch, cap: nat) {
    exists order: seq<string> ::
      && Enumerates(order, before) && (forall k <- order :: k in before)
      && after == LedgerAfter(before, order, b.facts, cap, b.event, b.step)
  }

  predicate Increasing(batches: seq<Batch>) {
    forall i, j :: 0 <= i < j < |batches| ==> batches[i].step < batches[j].step
  }

  /** Over any run from a seeded ledger, with reports within the cap and growing steps: every ledger refines the
      last-write map, and from the first update on it stays within the cap. */
  lemma {:induction false} LedgerRefinesLastWrites(ledgers: seq<Dict>, batches: seq<Batch>, cap: nat, n: nat)
    requires LedgerRun(ledgers, batches, cap) && Increasing(batches) && n <= |batches|
    requires OlderThan(ledgers[0], 0)
    ensures Refines(ledgers[n], LastWrites(ledgers[0], batches[..n]))
    ensures OlderThan(LastWrites(ledgers[0], batches[..n]), if n == 0 then 0 else batches[n-1].step + 1)
    ensures n > 0 ==> |ledgers[n]| <= cap
  {
    hide Enumerates, ReportedKeys, Latest, LedgerAfter, StepOf;
    if n > 0 {
      LedgerRefinesLastWrites(ledgers, batches, cap, n - 1);
      var b := batches[n-1];
      assert batches[..n][..n-1] == batches[..n-1];
      var writes := LastWrites(ledgers[0], batches[..n-1]);
      assert n > 1 ==> batches[n-2].step < b.step;
      assert Follows(ledgers[n-1], ledgers[n-1+1], b, cap);
      var order :| Enumerates(order, ledgers[n-1]) && (forall k <- order :: k in ledgers[n-1])
        && ledgers[n] == LedgerAfter(ledgers[n-1], order, b.facts, cap, b.event, b.step);
      RefinesStep(ledgers[n-1], writes, order, b, cap);
      assert OlderThan(ledgers[n-1], b.step);
      CapKeptIff(ledgers[n-1], order, b.facts, cap, b.event, b.step);
    }
  }
}
