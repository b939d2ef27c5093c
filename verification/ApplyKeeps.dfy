/** Conservation: nothing leaves the working state without reaching the archive. */
module ApplyKeeps {
  import opened Domain
  import opened State
  import opened Apply
  import opened ApplyIds

  predicate QuestionArchived(archived: seq<Archived>, q: Question) {
    exists a <- archived :: a.item.QuestionItem? && a.item.question == q
  }

  /** Every fact, rejected hypothesis, artifact, pending action, blocker and question of `s` is, verbatim, in `t` or
      archived. */
  predicate Preserved(s: State, t: State, a: seq<Archived>) {
    && (forall x <- s.facts :: x in t.facts || InArchive(a, FactItem(x)))
    && (forall x <- s.rejected :: x in t.rejected || InArchive(a, RejectedItem(x)))
    && (forall x <- s.artifacts :: x in t.artifacts || InArchive(a, ArtifactItem(x)))
    && (forall x <- s.pending :: x in t.pending || InArchive(a, PendingItem(x)))
    && (forall x <- s.blockers :: x in t.blockers || InArchive(a, BlockerItem(x)))
    && (forall x <- s.questions :: x in t.questions || QuestionArchived(a, x))
  }

  lemma PreservedTransitive(s: State, t: State, u: State, a: seq<Archived>, b: seq<Archived>)
    requires Preserved(s, t, a) && Preserved(t, u, b)
    ensures Preserved(s, u, a + b)
  {
    forall item: Item | InArchive(a, item) || InArchive(b, item) ensures InArchive(a + b, item) {
      var x :| (x in a || x in b) && x.item == item;
      assert x in a + b;
    }
    forall q | QuestionArchived(a, q) || QuestionArchived(b, q) ensures QuestionArchived(a + b, q) {
      var x :| (x in a || x in b) && x.item.QuestionItem? && x.item.question == q;
      assert x in a + b;
    }
  }

  lemma {:induction false} RemoveKeepsOthers<T>(xs: seq<T>, x: T)
    ensures forall y <- xs :: y != x ==> y in Remove(xs, x)
  {
    if xs != [] {
      assert xs == [xs[0]] + xs[1..];
      RemoveKeepsOthers(xs[1..], x);
    }
  }

  lemma {:induction false} ReplaceKeepsOthers<T>(xs: seq<Keyed<T>>, id: string, body: T)
    ensures forall y <- xs :: y in Replace(xs, id, body) || Some(y) == Find(xs, id)
    ensures Ids(xs) <= Ids(Replace(xs, id, body))
  {
    if id in Ids(xs) {
      ReplaceIds(xs, id, body);
    } else {
      ReplaceAbsent(xs, id, body);
    }
  }

  lemma {:induction false} ReplaceAbsent<T>(xs: seq<Keyed<T>>, id: string, body: T)
    requires id !in Ids(xs)
    ensures Replace(xs, id, body) == xs
  {
    if xs != [] {
      assert xs[0] in xs && forall y <- xs[1..] :: y in xs;
      ReplaceAbsent(xs[1..], id, body);
    }
  }

  lemma InSingleton(item: Item, reason: string)
    ensures InArchive([Archived(item, reason, false)], item)
  {
    assert Archived(item, reason, false) in [Archived(item, reason, false)];
  }

  lemma {:induction false} ArchiveAllPreserves(s: State, ids: seq<string>, reason: string)
    requires ArchiveAll(s, ids, reason).Done?
    ensures Preserved(s, ArchiveAll(s, ids, reason).state, ArchiveAll(s, ids, reason).archived)
    decreases |ids|
  {
    if ids != [] {
      var r1 := ArchiveAll(s, ids[..|ids|-1], reason);
      ArchiveAllPreserves(s, ids[..|ids|-1], reason);
      var f := Find(r1.state.facts, ids[|ids|-1]).value;
      RemoveKeepsOthers(r1.state.facts, f);
      InSingleton(FactItem(f), reason);
      var s2 := r1.state.(facts := Remove(r1.state.facts, f));
      PreservedTransitive(s, r1.state, s2, r1.archived, [Archived(FactItem(f), reason, false)]);
    }
  }

  lemma FactOpPreserves(s: State, op: Op, norm: string -> string)
    requires IsFactOp(op) && FactOp(s, op, norm).Done?
    ensures Preserved(s, FactOp(s, op, norm).state, FactOp(s, op, norm).archived)
  {
    match op
    case AddFact(_, _, _, _) =>
    case SupersedeFact(id, st, c, e) =>
      ReplaceKeepsOthers(s.facts, id, FactBody(st, c, e));
      InSingleton(FactItem(Find(s.facts, id).value), "superseded by new statement");
    case RemoveFact(id, reason) =>
      RemoveKeepsOthers(s.facts, Find(s.facts, id).value);
      InSingleton(FactItem(Find(s.facts, id).value), reason);
    case ArchiveFacts(ids, reason) => ArchiveAllPreserves(s, ids, reason);
  }

  lemma PlanOpPreserves(s: State, op: Op)
    requires IsPlanOp(op) && PlanOp(s, op).Done?
    ensures Preserved(s, PlanOp(s, op).state, PlanOp(s, op).archived)
  {
    if op.RemoveArtifact? {
      RemoveKeepsOthers(s.artifacts, Find(s.artifacts, op.id).value);
      InSingleton(ArtifactItem(Find(s.artifacts, op.id).value), op.reason);
    }
  }

  lemma IssueOpPreserves(s: State, op: Op)
    requires IsIssueOp(op) && IssueOp(s, op).Done?
    ensures Preserved(s, IssueOp(s, op).state, IssueOp(s, op).archived)
  {
    match op
    case AddPendingAction(_, _) | AddBlocker(_, _) | AddQuestion(_, _) =>
    case CompletePendingAction(id) =>
      RemoveKeepsOthers(s.pending, Find(s.pending, id).value);
      InSingleton(PendingItem(Find(s.pending, id).value), "completed");
    case RemoveBlocker(id, reason) =>
      RemoveKeepsOthers(s.blockers, Find(s.blockers, id).value);
      InSingleton(BlockerItem(Find(s.blockers, id).value), reason);
    case ResolveQuestion(id, answer) =>
      RemoveKeepsOthers(s.questions, Find(s.questions, id).value);
      InSingleton(QuestionItem(Find(s.questions, id).value, answer), "resolved");
  }

  lemma OpPreserves(s: State, op: Op, norm: string -> string, now: int)
    requires ApplyOp(s, op, norm, now).Done?
    ensures Preserved(s, ApplyOp(s, op, norm, now).state, ApplyOp(s, op, norm, now).archived)
  {
    hide FactOp, HypothesisOp, PlanOp, IssueOp, TableOp, ScalarOp;
    if !TouchesLists(op) {
      OtherOpsKeepLists(s, op, norm, now);
    } else if IsFactOp(op) {
      FactOpPreserves(s, op, norm);
    } else if IsPlanOp(op) {
      PlanOpPreserves(s, op);
    } else if IsIssueOp(op) {
      IssueOpPreserves(s, op);
    } else {
      HypothesisOpPreserves(s, op, now);
    }
  }

  lemma HypothesisOpPreserves(s: State, op: Op, now: int)
    requires IsHypothesisOp(op) && HypothesisOp(s, op, now).Done?
    ensures Preserved(s, HypothesisOp(s, op, now).state, HypothesisOp(s, op, now).archived)
  {
    hide Find, Remove, Replace;
  }

  /** A fact or a rejected hypothesis, in the state or archived, that carries the hypothesis's id and statement. */
  ghost predicate Settled(h: Hypothesis, t: State, a: seq<Archived>) {
    || (exists f: Fact ::
        f.id == h.id && f.body.statement == h.body.statement && (f in t.facts || InArchive(a, FactItem(f))))
    || (exists r: RuledOut ::
        r.id == h.id && r.body.statement == h.body.statement && (r in t.rejected || InArchive(a, RejectedItem(r))))
  }

  /** One operation: a hypothesis stays active under its id, or has become a fact or a rejected hypothesis. */
  lemma OpSettlesHypotheses(s: State, op: Op, norm: string -> string, now: int, h: Hypothesis)
    requires ApplyOp(s, op, norm, now).Done? && h in s.hyps && h.id !in Ids(ApplyOp(s, op, norm, now).state.hyps)
    ensures Settled(h, ApplyOp(s, op, norm, now).state, [])
  {
    var t := ApplyOp(s, op, norm, now).state;
    if IsHypothesisOp(op) {
      match op
      case AddHypothesis(id, st, c, e) => AppendKeepsId(s.hyps, h, Keyed(id, FactBody(st, c, e)));
      case UpdateHypothesis(id, _, _, _) =>
        ReplaceKeepsOthers(s.hyps, id, FactBody(op.newStatement.GetOr(Find(s.hyps, id).value.body.statement),
                                                op.newConfidence.GetOr(Find(s.hyps, id).value.body.confidence),
                                                op.newEvidence.GetOr(Find(s.hyps, id).value.body.evidence)));
      case RejectHypothesis(id, _, _) =>
        RemoveKeepsOthers(s.hyps, Find(s.hyps, id).value);
        assert h == Find(s.hyps, id).value;
        assert t.rejected[|s.rejected|] in t.rejected;
      case PromoteHypothesis(id, _, _) =>
        RemoveKeepsOthers(s.hyps, Find(s.hyps, id).value);
        assert h == Find(s.hyps, id).value;
        assert t.facts[|s.facts|] in t.facts;
    } else {
      OtherOpsKeepHypotheses(s, op, norm, now);
    }
  }

  lemma AppendKeepsId<T>(xs: seq<Keyed<T>>, y: Keyed<T>, x: Keyed<T>)
    requires y in xs
    ensures y.id in Ids(xs + [x])
  {
    assert y in xs + [x];
  }

  lemma OtherOpsKeepHypotheses(s: State, op: Op, norm: string -> string, now: int)
    requires ApplyOp(s, op, norm, now).Done? && !IsHypothesisOp(op)
    ensures ApplyOp(s, op, norm, now).state.hyps == s.hyps
  {
    hide FactOp, HypothesisOp, Find, Remove, Replace, TakenIds, PlanOf;
    if IsFactOp(op) {
      FactOpsKeepHypotheses(s, op, norm);
    }
  }

  lemma FactOpsKeepHypotheses(s: State, op: Op, norm: string -> string)
    requires IsFactOp(op) && FactOp(s, op, norm).Done?
    ensures FactOp(s, op, norm).state.hyps == s.hyps
  {
    if op.ArchiveFacts? {
      ArchiveAllFrame(s, op.ids, op.reason);
      hide ArchiveAll;
    }
  }

  lemma {:induction false} ArchiveAllFrame(s: State, ids: seq<string>, reason: string)
    requires ArchiveAll(s, ids, reason).Done?
    ensures ArchiveAll(s, ids, reason).state == s.(facts := ArchiveAll(s, ids, reason).state.facts)
    ensures forall f <- ArchiveAll(s, ids, reason).state.facts :: f in s.facts
    decreases |ids|
  {
    if ids != [] {
      ArchiveAllFrame(s, ids[..|ids|-1], reason);
      var s1 := ArchiveAll(s, ids[..|ids|-1], reason).state;
      RemoveOnlyRemoves(s1.facts, Find(s1.facts, ids[|ids|-1]).value);
    }
  }

  lemma {:induction false} RemoveOnlyRemoves<T>(xs: seq<T>, x: T)
    ensures forall y <- Remove(xs, x) :: y in xs
  {
    if xs != [] {
      assert xs == [xs[0]] + xs[1..];
      RemoveOnlyRemoves(xs[1..], x);
    }
  }

  lemma SettledCarries(h: Hypothesis, t: State, a: seq<Archived>, u: State, b: seq<Archived>)
    requires Settled(h, t, a) && Preserved(t, u, b)
    ensures Settled(h, u, a + b)
  {
    forall item: Item | InArchive(a, item) || InArchive(b, item) ensures InArchive(a + b, item) {
      var x :| (x in a || x in b) && x.item == item;
      assert x in a + b;
    }
  }

  /** The state after the first `i` operations of a patch that goes through. */
  lemma {:induction false} PrefixDone(s: State, ops: seq<Op>, i: nat, norm: string -> string, now: int)
    requires i <= |ops| && ApplyOps(s, ops, norm, now).AllDone?
    ensures ApplyOps(s, ops[..i], norm, now).AllDone?
    ensures ApplyOps(s, ops[..i], norm, now).archived <= ApplyOps(s, ops, norm, now).archived
    ensures Preserved(ApplyOps(s, ops[..i], norm, now).state, ApplyOps(s, ops, norm, now).state,
                      ApplyOps(s, ops, norm, now).archived[|ApplyOps(s, ops[..i], norm, now).archived|..])
    decreases |ops| - i
  {
    if i == |ops| {
      assert ops[..i] == ops;
    } else {
      PrefixDone(s, ops, i + 1, norm, now);
      LastOp(s, ops, i, norm, now);
      var mid := ApplyOps(s, ops[..i], norm, now);
      OpPreserves(mid.state, ops[i], norm, now);
      StepBack(mid, ApplyOp(mid.state, ops[i], norm, now), ApplyOps(s, ops[..i+1], norm, now),
               ApplyOps(s, ops, norm, now));
    }
  }

  lemma LastOp(s: State, ops: seq<Op>, i: nat, norm: string -> string, now: int)
    requires i < |ops| && ApplyOps(s, ops[..i+1], norm, now).AllDone?
    ensures var mid := ApplyOps(s, ops[..i], norm, now);
      && mid.AllDone? && ApplyOp(mid.state, ops[i], norm, now).Done?
      && var step := ApplyOp(mid.state, ops[i], norm, now);
         ApplyOps(s, ops[..i+1], norm, now) == AllDone(step.state, mid.archived + step.archived)
  {
    assert ops[..i+1][..i] == ops[..i];
  }

  lemma StepBack(mid: OpsResult, step: OpResult, next: OpsResult, full: OpsResult)
    requires mid.AllDone? && step.Done? && full.AllDone?
    requires next == AllDone(step.state, mid.archived + step.archived)
    requires Preserved(mid.state, step.state, step.archived)
    requires next.archived <= full.archived && Preserved(next.state, full.state, full.archived[|next.archived|..])
    ensures mid.archived <= full.archived && Preserved(mid.state, full.state, full.archived[|mid.archived|..])
  {
    var rest := full.archived[|next.archived|..];
    PreservedTransitive(mid.state, next.state, full.state, step.archived, rest);
    assert full.archived == next.archived + rest;
    assert full.archived[|mid.archived|..] == step.archived + rest;
  }

  lemma CompactRejectedPreserves(s: State, limits: Limits)
    ensures Preserved(s, CompactRejected(s, limits).0, CompactRejected(s, limits).1)
  {
    CompactRejectedKeeps(s, limits);
  }

  lemma CompactPlanPreserves(s: State, limits: Limits)
    ensures Preserved(s, CompactPlan(s, limits).0, CompactPlan(s, limits).1)
  {}

  lemma CompactPreserves(s: State, limits: Limits)
    ensures Preserved(s, Compact(s, limits).0, Compact(s, limits).1)
  {
    hide Preserved, CompactRejected, CompactPlan;
    var (s1, a1) := CompactRejected(s, limits);
    var (s2, a2) := CompactPlan(s1, limits);
    CompactRejectedPreserves(s, limits);
    CompactPlanPreserves(s1, limits);
    PreservedTransitive(s, s1, s2, a1, a2);
  }

  lemma PreservedWiden(s: State, t: State, a: seq<Archived>, b: seq<Archived>)
    requires Preserved(s, t, b)
    ensures Preserved(s, t, a + b)
  {
    PreservedTransitive(s, s, t, a, b);
  }

  /** An accepted patch is its operations followed by compaction, one version on. */
  lemma AppliedShape(s: State, patch: Patch, archive: Option<set<string>>, pol: Policy, now: int)
    requires ApplyPatch(s, patch, archive, pol, now).Applied?
    ensures patch.expected == s.version && CheckEvidence(patch.ops, archive).None?
    ensures ApplyOps(s, patch.ops, pol.norm, now).AllDone?
    ensures var full := ApplyOps(s, patch.ops, pol.norm, now);
            var (s1, a1) := Compact(full.state, pol.limits);
            ApplyPatch(s, patch, archive, pol, now) == Applied(s1.(version := s.version + 1), full.archived + a1)
  {}

  lemma SliceSum<T>(xs: seq<T>, pre: seq<T>, ys: seq<T>)
    requires pre <= xs
    ensures pre + (xs[|pre|..] + ys) == xs + ys
  {}

  /** Conservation over a whole accepted patch: whatever the state held before, or after any prefix of the operations,
      is verbatim in the result or archived, compaction included. */
  lemma PatchConserves(s: State, patch: Patch, archive: Option<set<string>>, pol: Policy, now: int, i: nat)
    requires i <= |patch.ops|
    requires ApplyPatch(s, patch, archive, pol, now).Applied?
    ensures ApplyOps(s, patch.ops[..i], pol.norm, now).AllDone?
    ensures var r := ApplyPatch(s, patch, archive, pol, now);
      Preserved(ApplyOps(s, patch.ops[..i], pol.norm, now).state, r.state, r.archived)
  {
    AppliedShape(s, patch, archive, pol, now);
    PrefixDone(s, patch.ops, i, pol.norm, now);
    var full := ApplyOps(s, patch.ops, pol.norm, now);
    FinishConserves(ApplyOps(s, patch.ops[..i], pol.norm, now), full, pol.limits, s.version + 1);
  }

  lemma FinishConserves(mid: OpsResult, full: OpsResult, limits: Limits, version: nat)
    requires mid.AllDone? && full.AllDone? && mid.archived <= full.archived
    requires Preserved(mid.state, full.state, full.archived[|mid.archived|..])
    ensures var (s1, a1) := Compact(full.state, limits);
      Preserved(mid.state, s1.(version := version), full.archived + a1)
  {
    var (s1, a1) := Compact(full.state, limits);
    var rest := full.archived[|mid.archived|..];
    CompactPreserves(full.state, limits);
    PreservedTransitive(mid.state, full.state, s1, rest, a1);
    PreservedWiden(mid.state, s1, mid.archived, rest + a1);
    SliceSum(full.archived, mid.archived, a1);
  }

  /** A hypothesis that leaves the active list at operation `i` is, under its id and with the statement it had then,
      a fact or a rejected hypothesis of the result, or archived as one. */
  lemma PatchSettlesHypotheses(s: State, patch: Patch, archive: Option<set<string>>, pol: Policy, now: int, i: nat,
                               h: Hypothesis)
    requires i < |patch.ops|
    requires ApplyPatch(s, patch, archive, pol, now).Applied?
    requires ApplyOps(s, patch.ops[..i], pol.norm, now).AllDone?
    requires h in ApplyOps(s, patch.ops[..i], pol.norm, now).state.hyps
    requires ApplyOps(s, patch.ops[..i+1], pol.norm, now).AllDone?
    requires h.id !in Ids(ApplyOps(s, patch.ops[..i+1], pol.norm, now).state.hyps)
    ensures var r := ApplyPatch(s, patch, archive, pol, now); Settled(h, r.state, r.archived)
  {
    hide ApplyPatch, ApplyOp, Settled, Preserved;
    var mid := ApplyOps(s, patch.ops[..i], pol.norm, now).state;
    var next := ApplyOps(s, patch.ops[..i+1], pol.norm, now).state;
    LastOp(s, patch.ops, i, pol.norm, now);
    OpSettlesHypotheses(mid, patch.ops[i], pol.norm, now, h);
    PatchConserves(s, patch, archive, pol, now, i + 1);
    var r := ApplyPatch(s, patch, archive, pol, now);
    SettledCarries(h, next, [], r.state, r.archived);
    assert [] + r.archived == r.archived;
  }
}
