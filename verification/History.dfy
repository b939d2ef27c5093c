/** What the version chain of any run says about the states in it. */
module History {
  import opened Domain
  import opened State
  import opened Tables
  import opened Lifecycle
  import opened Versions
  import opened VersionSteps
  import opened Runs
  import Apply
  import opened ApplyIds
  import opened ApplyKeeps
  import opened ApplyFrame
  import Ledger
  import LedgerProofs
  import Sorting

  /** Every run, with any number of processes, crashes, resumes and replies, leaves a gapless chain of versions of
      which the current state is the last, each computed from the content of the one before it; one applied patch
      record per patch-carrying version; events numbered from 0; and step rows exactly up to the committed step
      counter. */
  lemma EveryRunKeepsTheDatabase(c: Config, s: State, input: string, now: int, limit: nat, labels: seq<Label>,
                                 solo: bool)
    requires Blank(s) && Start(c, s, input, now, limit).Some?
    ensures var t := Run(c, Start(c, s, input, now, limit).value, labels, solo).t;
      && EventsOk(t.events) && Numbered(t) && Linked(c, t) && PatchesMatch(t) && StepsOk(t)
      && t.versions[0].state == s
  {
    hide Apply.ApplyPatch, Linked, Start, Blank, PatchesMatch, StepsOk;
    StartOk(c, s, input, now, limit);
    RunKeeps(c, Start(c, s, input, now, limit).value, labels, solo);
  }

  /** What is committed stays committed, and the archive only grows. */
  lemma NothingCommittedIsLost(c: Config, s: System, labels: seq<Label>, solo: bool)
    requires SystemOk(c, s)
    ensures var t := Run(c, s, labels, solo).t;
      && s.t.events <= t.events && s.t.current.version <= t.current.version
      && forall v <- s.t.versions :: v in t.versions && t.versions[v] == s.t.versions[v]
  {
    hide Apply.ApplyPatch, SystemOk;
    RunKeeps(c, s, labels, solo);
  }

  // ---- a patch commits at most once ----

  /** Two applied records of patches that name the same version are one record. */
  lemma PatchCommitsAtMostOnce(t: Tables, i: nat, j: nat)
    requires PatchesMatch(t) && i < |t.patches| && j < |t.patches|
    requires t.patches[i].resulting.Some? && t.patches[j].resulting.Some?
    requires t.patches[i].patch.expected == t.patches[j].patch.expected
    ensures i == j
  {
    var v, w := t.patches[i].resulting.value, t.patches[j].resulting.value;
    assert t.versions[v].patchId == Some(i) && t.versions[w].patchId == Some(j);
  }

  /** Once a decision's patch is committed, no process can commit it again: applied to the current state it is
      refused as stale, and applied to an older copy of the state it fails the compare-and-set. */
  lemma CommittedPatchIsRejectedForever(c: Config, t: Tables, i: nat, p: Proc, a: Answer)
    requires TablesOk(c, t) && i < |t.patches| && t.patches[i].resulting.Some?
    requires ProcOk(c, t, p) && p.decision.Some? && p.decision.value.patch == t.patches[i].patch
    ensures p.pc.ApplyDecision? && p.exec.version == t.current.version
      ==> ApplyDecisionStep(c, t, p, a) == Go(t, p, RecordRejection)
    ensures p.pc.Commit? ==> CommitStep(t, p) == Go(t, p, RecordStale)
  {
    hide Link, Linked;
    var v := t.patches[i].resulting.value;
    assert v in t.versions && v == p.decision.value.patch.expected + 1;
    if p.pc.Commit? {
      hide Apply.ApplyPatch;
      var known, now :| ProposedBy(c, t, p, known, now);
      DecidedFacts(c, t, p, known, now);
      hide ProposedBy;
    }
  }

  // ---- ids ----

  lemma LinkKeepsIds(c: Config, a: State, b: VersionRow, ps: seq<PatchRow>, es: seq<Event>)
    requires Link(c, a, b, ps, es) && IdInv(a)
    ensures IdInv(b.state)
  {
    hide Apply.ApplyPatch, IdInv;
    if b.patchId.None? {
      SameListsKeepIds(a, b.state);
    } else {
      var patch := ps[b.patchId.value].patch;
      if base, known, now :| ModelWrote(c, base, known, now, a, patch, b.state, es) {
        SameListsKeepIds(a, base);
        PatchKeepsIds(base, patch, Some(known), c.policy, now);
        SameListsKeepIds(Apply.ApplyPatch(base, patch, Some(known), c.policy, now).state, b.state);
      } else if base, now :| LedgerWrote(c, base, now, a, patch, b.state) {
        SameListsKeepIds(a, base);
        PatchKeepsIds(base, patch, None, c.policy, now);
      } else {
        var now :| SeedWrote(c, now, a, patch, b.state);
        PatchKeepsIds(a, patch, None, c.policy.(schema := None), now);
      }
    }
  }

  /** In every committed version of every run, ids are unique within each list and distinct across the seven lists other
      than the plan. */
  lemma {:induction false} EveryVersionHasDistinctIds(c: Config, t: Tables, v: nat)
    requires Numbered(t) && Linked(c, t) && Blank(t.versions[0].state) && v <= t.current.version
    ensures IdInv(t.versions[v].state)
    decreases v
  {
    hide Apply.ApplyPatch, Link;
    if v == 0 {
      hide Linked;
    } else {
      hide IdInv;
      EveryVersionHasDistinctIds(c, t, v - 1);
      assert Link(c, t.versions[v-1].state, t.versions[v-1+1], t.patches, t.events);
      LinkKeepsIds(c, t.versions[v-1].state, t.versions[v], t.patches, t.events);
    }
  }

  // ---- provenance ----

  predicate CitesNothing(ops: seq<Op>) {
    forall op <- ops :: Apply.Citations(op) == []
  }

  lemma SameListsGrounded(a: State, b: State, known: set<string>)
    requires Grounded(a, known) && SameLists(a, b)
    ensures Grounded(b, known)
  {}

  lemma DomainOpsCiteNothing(ops: seq<Op>)
    requires DomainOnly(ops)
    ensures CitesNothing(ops)
  {}

  lemma LinkKeepsGrounded(c: Config, a: State, b: VersionRow, ps: seq<PatchRow>, es: seq<Event>)
    requires Link(c, a, b, ps, es) && Grounded(a, EventIds(es)) && CitesNothing(c.initial)
    ensures Grounded(b.state, EventIds(es))
  {
    hide Apply.ApplyPatch, Grounded, CitesNothing;
    if b.patchId.None? {
      SameListsGrounded(a, b.state, EventIds(es));
    } else {
      var patch := ps[b.patchId.value].patch;
      if base, known, now :| ModelWrote(c, base, known, now, a, patch, b.state, es) {
        SameListsGrounded(a, base, EventIds(es));
        PatchGrounded(base, patch, Some(known), c.policy, now, EventIds(es));
        SameListsGrounded(Apply.ApplyPatch(base, patch, Some(known), c.policy, now).state, b.state, EventIds(es));
      } else if base, now :| LedgerWrote(c, base, now, a, patch, b.state) {
        SameListsGrounded(a, base, EventIds(es));
        DomainOpsCiteNothing(patch.ops);
        UncheckedGrounded(base, patch, c.policy, now, EventIds(es));
      } else {
        var now :| SeedWrote(c, now, a, patch, b.state);
        UncheckedGrounded(a, patch, c.policy.(schema := None), now, EventIds(es));
      }
    }
  }

  lemma UncheckedGrounded(s: State, patch: Patch, pol: Apply.Policy, now: int, known: set<string>)
    requires Grounded(s, known) && CitesNothing(patch.ops) && Apply.ApplyPatch(s, patch, None, pol, now).Applied?
    ensures Grounded(Apply.ApplyPatch(s, patch, None, pol, now).state, known)
  {
    hide Apply.ApplyPatch, Grounded;
    PatchGrounded(s, patch, None, pol, now, known);
  }

  /** Every event cited anywhere in any committed version is in the archive and every fact cites at least one, provided
      that the initial operations cite nothing: nothing checks those. */
  lemma {:induction false} EveryCitationIsArchived(c: Config, t: Tables, v: nat)
    requires Numbered(t) && Linked(c, t) && Blank(t.versions[0].state) && v <= t.current.version
    requires CitesNothing(c.initial)
    ensures Grounded(t.versions[v].state, EventIds(t.events))
    decreases v
  {
    hide Apply.ApplyPatch, Link, CitesNothing;
    if v == 0 {
      hide Linked;
    } else {
      hide Grounded;
      EveryCitationIsArchived(c, t, v - 1);
      assert Link(c, t.versions[v-1].state, t.versions[v-1+1], t.patches, t.events);
      LinkKeepsGrounded(c, t.versions[v-1].state, t.versions[v], t.patches, t.events);
    }
  }

  // ---- conservation ----

  lemma {:induction false} ArchiveHolds(events: seq<Event>, x: Archived)
    requires Holds(events, x)
    ensures x in Preserves(events)
    decreases |events|
  {
    var n := |events| - 1;
    if events[n].item != Some(x) {
      var i :| 0 <= i < |events| && events[i].item == Some(x);
      assert events[..n][i] == events[i];
      ArchiveHolds(events[..n], x);
    }
  }

  lemma PreservedMore(s: State, t: State, a: seq<Archived>, b: seq<Archived>)
    requires Preserved(s, t, a) && forall x <- a :: x in b
    ensures Preserved(s, t, b)
  {
    forall item: Item | InArchive(a, item) ensures InArchive(b, item) {
      var x :| x in a && x.item == item;
      assert x in b;
    }
    forall q | QuestionArchived(a, q) ensures QuestionArchived(b, q) {
      var x :| x in a && x.item.QuestionItem? && x.item.question == q;
      assert x in b;
    }
  }

  lemma SameListsPreserved(a: State, b: State, kept: seq<Archived>)
    requires SameLists(a, b)
    ensures Preserved(a, b, kept)
  {}

  lemma PreservedRelabelled(a: State, a': State, b: State, b': State, kept: seq<Archived>)
    requires Preserved(a, b, kept) && SameLists(a, a') && SameLists(b, b')
    ensures Preserved(a', b', kept)
  {}

  /** Nothing for compaction to do. */
  predicate Compacted(s: State, l: Apply.Limits) {
    |s.rejected| <= l.maxRejected && |s.plan| <= l.maxPlan
  }

  lemma PatchLeavesCompacted(s: State, patch: Patch, archive: Option<set<string>>, pol: Apply.Policy, now: int)
    requires Apply.ApplyPatch(s, patch, archive, pol, now).Applied?
    ensures Compacted(Apply.ApplyPatch(s, patch, archive, pol, now).state, pol.limits)
  {
    AppliedShape(s, patch, archive, pol, now);
    var s1 := Apply.ApplyOps(s, patch.ops, pol.norm, now).state;
    CompactLeavesCompacted(s1, pol.limits);
  }

  lemma CompactLeavesCompacted(s: State, l: Apply.Limits)
    requires Apply.WithinLimits(Apply.Compact(s, l).0, l)
    ensures Compacted(Apply.Compact(s, l).0, l)
  {
    ghost var s1 := Apply.CompactRejected(s, l).0;
    if |s.rejected| > l.maxRejected {
      Sorting.SortByCorrect(s.rejected, (r: RuledOut) => r.body.rejectedAt);
    }
  }

  /** A ledger patch leaves every list alone: its compaction finds nothing to do, so dropping what it archives loses no
      record. */
  lemma LedgerPatchKeepsLists(s: State, patch: Patch, pol: Apply.Policy, now: int)
    requires DomainOnly(patch.ops) && Compacted(s, pol.limits) && Apply.ApplyPatch(s, patch, None, pol, now).Applied?
    ensures SameLists(s, Apply.ApplyPatch(s, patch, None, pol, now).state)
  {
    AppliedShape(s, patch, None, pol, now);
    DomainOpsOnlyEditDomain(s, patch.ops, pol.norm, now);
  }

  lemma ModelLinkConserves(c: Config, base: State, known: set<string>, now: int, a: State, patch: Patch, b: State,
                           es: seq<Event>)
    requires ModelWrote(c, base, known, now, a, patch, b, es)
    ensures Preserved(a, b, Preserves(es))
  {
    var r := Apply.ApplyPatch(base, patch, Some(known), c.policy, now);
    hide Apply.ApplyPatch, Preserved;
    assert patch.ops[..0] == [];
    PatchConserves(base, patch, Some(known), c.policy, now, 0);
    assert Apply.ApplyOps(base, [], c.policy.norm, now).state == base;
    forall x | x in r.archived ensures x in Preserves(es) {
      ArchiveHolds(es, x);
    }
    PreservedMore(base, r.state, r.archived, Preserves(es));
    PreservedRelabelled(base, a, r.state, b, Preserves(es));
  }

  lemma LinkConserves(c: Config, a: State, b: VersionRow, ps: seq<PatchRow>, es: seq<Event>)
    requires Link(c, a, b, ps, es) && Compacted(a, c.policy.limits)
    ensures Preserved(a, b.state, Preserves(es)) && Compacted(b.state, c.policy.limits)
  {
    hide Apply.ApplyPatch, Preserved;
    if b.patchId.None? {
      SameListsPreserved(a, b.state, Preserves(es));
    } else {
      var patch := ps[b.patchId.value].patch;
      if base, known, now :| ModelWrote(c, base, known, now, a, patch, b.state, es) {
        ModelLinkConserves(c, base, known, now, a, patch, b.state, es);
        PatchLeavesCompacted(base, patch, Some(known), c.policy, now);
      } else if base, now :| LedgerWrote(c, base, now, a, patch, b.state) {
        LedgerPatchKeepsLists(base, patch, c.policy, now);
        SameListsPreserved(a, b.state, Preserves(es));
      } else {
        var now :| SeedWrote(c, now, a, patch, b.state);
        PatchLeavesCompacted(a, patch, None, c.policy.(schema := None), now);
        BlankPreserved(a, b.state, Preserves(es));
      }
    }
  }

  lemma BlankPreserved(a: State, b: State, kept: seq<Archived>)
    requires Blank(a)
    ensures Preserved(a, b, kept)
  {}

  lemma {:induction false} EveryVersionIsCompacted(c: Config, t: Tables, v: nat)
    requires Numbered(t) && Linked(c, t) && Blank(t.versions[0].state) && v <= t.current.version
    ensures Compacted(t.versions[v].state, c.policy.limits)
    decreases v
  {
    hide Apply.ApplyPatch, Link, Preserved;
    if v > 0 {
      EveryVersionIsCompacted(c, t, v - 1);
      assert Link(c, t.versions[v-1].state, t.versions[v-1+1], t.patches, t.events);
      LinkConserves(c, t.versions[v-1].state, t.versions[v], t.patches, t.events);
    }
  }

  /** From any version of any run to any later one, every fact, rejected hypothesis, artifact, pending action,
      blocker and question is still there verbatim or stands in an archive event. */
  lemma {:induction false} EveryRecordSurvives(c: Config, t: Tables, v: nat, w: nat)
    requires Numbered(t) && Linked(c, t) && Blank(t.versions[0].state) && v <= w <= t.current.version
    ensures Preserved(t.versions[v].state, t.versions[w].state, Preserves(t.events))
    decreases w
  {
    hide Apply.ApplyPatch, Link, Preserved;
    var kept := Preserves(t.events);
    if v == w {
      SameListsPreserved(t.versions[v].state, t.versions[v].state, kept);
    } else {
      EveryRecordSurvives(c, t, v, w - 1);
      EveryVersionIsCompacted(c, t, w - 1);
      assert Link(c, t.versions[w-1].state, t.versions[w-1+1], t.patches, t.events);
      LinkConserves(c, t.versions[w-1].state, t.versions[w], t.patches, t.events);
      PreservedTransitive(t.versions[v].state, t.versions[w-1].state, t.versions[w].state, kept, kept);
      PreservedMore(t.versions[v].state, t.versions[w].state, kept + kept, kept);
    }
  }

  // ---- the ledger inside the lifecycle ----

  /** What a process commits to its ledger is the ledger update that the run-wide theorems about ledgers speak of. */
  lemma LedgerCommitFollows(c: Config, t: Tables, p: Proc, a: Answer)
    requires p.pc.UpdateLedger? && Ordered(p, a) && CallsTool(p) && p.tool.Some? && p.tool.value.facts != []
    requires LedgerProofs.Ready(p.exec.domain, p.decision.value.control.action.tool, a.order, p.step)
    ensures var m := UpdateLedgerStep(c, t, p, a); var tool := p.decision.value.control.action.tool;
      m.tables != t ==>
        && LedgerProofs.Follows(Ledger.Entries(p.exec.domain, tool), Ledger.Entries(m.proc.exec.domain, tool),
                                LedgerProofs.Batch(p.tool.value.facts, p.pc.event, p.step), c.ledgerCap)
        && Ledger.LedgerShaped(m.proc.exec.domain, tool)
  {
    hide Apply.ApplyPatch, UpdateLedgerStep, LedgerProofs.Ready, LedgerProofs.LedgerAfter, Ledger.LedgerOps,
      Ledger.ReportedKeys;
    UpdateLedgerShape(c, t, p, a);
    var m := UpdateLedgerStep(c, t, p, a);
    if m.tables != t {
      var tool, facts := p.decision.value.control.action.tool, p.tool.value.facts;
      LedgerProofs.LedgerPatchOutcome(p.exec, tool, a.order, facts, c.ledgerCap, p.pc.event, p.step, c.policy, a.now);
      var after := LedgerProofs.LedgerAfter(Ledger.Entries(p.exec.domain, tool), a.order, facts, c.ledgerCap,
                                            p.pc.event, p.step);
      LedgerProofs.LedgerTwice(p.exec.domain, tool, after, after);
    }
  }
}
