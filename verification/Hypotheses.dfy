/** Where a hypothesis can go, over a patch, a version and a whole run. */
module Hypotheses {
  import opened Domain
  import opened State
  import opened Tables
  import opened Lifecycle
  import opened Versions
  import opened ApplyIds
  import opened ApplyKeeps
  import opened History
  import Apply

  /** The id belongs to a fact or a rejected hypothesis, in the state or in the archive. */
  ghost predicate SettledId(id: string, t: State, a: seq<Archived>) {
    || (exists f: Fact :: f.id == id && (f in t.facts || InArchive(a, FactItem(f))))
    || (exists r: RuledOut :: r.id == id && (r in t.rejected || InArchive(a, RejectedItem(r))))
  }

  /** The id is still that of an active hypothesis, or settled. */
  ghost predicate Traced(id: string, t: State, a: seq<Archived>) {
    id in Ids(t.hyps) || SettledId(id, t, a)
  }

  // ---- one patch ----

  function After(s: State, ops: seq<Op>, i: nat, norm: string -> string, now: int): Apply.OpsResult
    requires i <= |ops|
  {
    Apply.ApplyOps(s, ops[..i], norm, now)
  }

  /** Some operation is the one at which an id leaves the hypotheses, if it is gone after `i` of them. */
  lemma {:induction false} LeavesSomewhere(s: State, ops: seq<Op>, i: nat, norm: string -> string, now: int, id: string)
    returns (k: nat)
    requires i <= |ops| && After(s, ops, i, norm, now).AllDone?
    requires id in Ids(s.hyps) && id !in Ids(After(s, ops, i, norm, now).state.hyps)
    ensures k < i && After(s, ops, k, norm, now).AllDone? && After(s, ops, k + 1, norm, now).AllDone?
    ensures id in Ids(After(s, ops, k, norm, now).state.hyps) && id !in Ids(After(s, ops, k + 1, norm, now).state.hyps)
    decreases i
  {
    hide Apply.ApplyOp;
    assert ops[..0] == [];
    if i == 0 {
      assert false;
    } else {
      LastOp(s, ops, i - 1, norm, now);
      if id in Ids(After(s, ops, i - 1, norm, now).state.hyps) {
        k := i - 1;
      } else {
        k := LeavesSomewhere(s, ops, i - 1, norm, now, id);
      }
    }
  }

  lemma CompactLeavesHypotheses(s: State, l: Apply.Limits)
    ensures Apply.Compact(s, l).0.hyps == s.hyps
  {}

  lemma PatchTraces(s: State, patch: Patch, archive: Option<set<string>>, pol: Apply.Policy, now: int, id: string)
    requires Apply.ApplyPatch(s, patch, archive, pol, now).Applied? && id in Ids(s.hyps)
    ensures var r := Apply.ApplyPatch(s, patch, archive, pol, now); Traced(id, r.state, r.archived)
  {
    hide Apply.ApplyPatch, Apply.ApplyOps, Apply.ApplyOp, Apply.Compact;
    AppliedShape(s, patch, archive, pol, now);
    var n := |patch.ops|;
    assert patch.ops[..n] == patch.ops;
    var full := Apply.ApplyOps(s, patch.ops, pol.norm, now).state;
    CompactLeavesHypotheses(full, pol.limits);
    if id !in Ids(full.hyps) {
      var k := LeavesSomewhere(s, patch.ops, n, pol.norm, now, id);
      var h :| h in After(s, patch.ops, k, pol.norm, now).state.hyps && h.id == id;
      PatchSettlesHypotheses(s, patch, archive, pol, now, k, h);
    }
  }

  // ---- one version ----

  lemma SettledStays(id: string, s: State, t: State, a: seq<Archived>, kept: seq<Archived>)
    requires SettledId(id, s, a) && Preserved(s, t, kept) && forall x <- a :: x in kept
    ensures SettledId(id, t, kept)
  {
    forall item: Item | InArchive(a, item) ensures InArchive(kept, item) {
      var x :| x in a && x.item == item;
      assert x in kept;
    }
  }

  lemma SameListsTraced(id: string, s: State, t: State, a: seq<Archived>, kept: seq<Archived>)
    requires Traced(id, s, a) && SameLists(s, t) && forall x <- a :: x in kept
    ensures Traced(id, t, kept)
  {
    if id !in Ids(s.hyps) {
      SettledStays(id, s, t, a, kept);
    }
  }

  lemma ModelLinkTraces(c: Config, base: State, known: set<string>, now: int, a: State, patch: Patch, b: State,
                        es: seq<Event>, id: string)
    requires ModelWrote(c, base, known, now, a, patch, b, es) && id in Ids(a.hyps)
    ensures Traced(id, b, Preserves(es))
  {
    hide Apply.ApplyPatch, Traced;
    var r := Apply.ApplyPatch(base, patch, Some(known), c.policy, now);
    PatchTraces(base, patch, Some(known), c.policy, now, id);
    forall x | x in r.archived ensures x in Preserves(es) {
      ArchiveHolds(es, x);
    }
    SameListsTraced(id, r.state, b, r.archived, Preserves(es));
  }

  /** One link of the version chain keeps track of every active hypothesis. */
  lemma LinkTraces(c: Config, a: State, b: VersionRow, ps: seq<PatchRow>, es: seq<Event>, id: string)
    requires Link(c, a, b, ps, es) && Compacted(a, c.policy.limits) && id in Ids(a.hyps)
    ensures Traced(id, b.state, Preserves(es))
  {
    hide Apply.ApplyPatch, SettledId;
    if b.patchId.Some? {
      var patch := ps[b.patchId.value].patch;
      if base, known, now :| ModelWrote(c, base, known, now, a, patch, b.state, es) {
        ModelLinkTraces(c, base, known, now, a, patch, b.state, es, id);
      } else if base, now :| LedgerWrote(c, base, now, a, patch, b.state) {
        LedgerPatchKeepsLists(base, patch, c.policy, now);
      }
    }
  }

  // ---- a run ----

  /** From any version of any run to any later one, every active hypothesis is still active, or its id is that of a
      fact or a rejected hypothesis, in the later version or in an archive event. */
  lemma {:induction false} EveryHypothesisIsTraced(c: Config, t: Tables, v: nat, w: nat, id: string)
    requires Numbered(t) && Linked(c, t) && Blank(t.versions[0].state) && v <= w <= t.current.version
    requires id in Ids(t.versions[v].state.hyps)
    ensures Traced(id, t.versions[w].state, Preserves(t.events))
    decreases w
  {
    hide Apply.ApplyPatch, Link, Preserved, SettledId;
    if v < w {
      EveryHypothesisIsTraced(c, t, v, w - 1, id);
      EveryVersionIsCompacted(c, t, w - 1);
      assert Link(c, t.versions[w-1].state, t.versions[w-1+1], t.patches, t.events);
      var a, b := t.versions[w-1].state, t.versions[w];
      if id in Ids(a.hyps) {
        LinkTraces(c, a, b, t.patches, t.events, id);
      } else {
        LinkConserves(c, a, b, t.patches, t.events);
        SettledStays(id, a, b.state, Preserves(t.events), Preserves(t.events));
      }
    }
  }
}
