/** Record ids under patches: uniqueness, and what removal by equality really removes. */
module ApplyIds {
  import opened Domain
  import opened State
  import opened Sorting
  import opened Text
  import opened Apply

  lemma {:induction false} RemoveDropsThatRecord<T>(xs: seq<Keyed<T>>, x: Keyed<T>)
    requires UniqueIds(xs) && x in xs
    ensures UniqueIds(Remove(xs, x)) && Ids(Remove(xs, x)) == Ids(xs) - {x.id}
    ensures forall y <- Remove(xs, x) :: y in xs && y != x
    ensures forall y <- xs :: y != x ==> y in Remove(xs, x)
    decreases |xs|
  {
    var tail := xs[1..];
    assert xs == [xs[0]] + tail;
    if xs[0] == x {
      assert x !in tail;
    } else {
      RemoveDropsThatRecord(tail, x);
      var rest := Remove(tail, x);
      assert Remove(xs, x) == [xs[0]] + rest;
      forall y | y in rest ensures y.id != xs[0].id {
        assert y in tail;
      }
    }
    IdsOfRemove(xs, Remove(xs, x), x);
  }

  lemma IdsOfRemove<T>(xs: seq<Keyed<T>>, rest: seq<Keyed<T>>, x: Keyed<T>)
    requires UniqueIds(xs) && x in xs
    requires forall y <- rest :: y in xs && y != x
    requires forall y <- xs :: y != x ==> y in rest
    ensures Ids(rest) == Ids(xs) - {x.id}
  {
    forall y <- rest ensures y.id in Ids(xs) && y.id != x.id {
      var i :| 0 <= i < |xs| && xs[i] == y;
      var j :| 0 <= j < |xs| && xs[j] == x;
    }
    forall id | id in Ids(xs) && id != x.id ensures id in Ids(rest) {
      var y :| y in xs && y.id == id;
    }
  }

  lemma AppendIds<T>(xs: seq<Keyed<T>>, x: Keyed<T>)
    requires UniqueIds(xs) && x.id !in Ids(xs)
    ensures UniqueIds(xs + [x]) && Ids(xs + [x]) == Ids(xs) + {x.id}
  {
    forall i | 0 <= i < |xs| ensures xs[i].id != x.id {
      assert xs[i] in xs;
    }
    assert x in xs + [x];
    forall y <- xs ensures y in xs + [x] {}
  }

  lemma {:induction false} ReplaceShape<T>(xs: seq<Keyed<T>>, id: string, body: T)
    requires id in Ids(xs)
    ensures var r := Replace(xs, id, body);
      && |r| == |xs| && (forall i :: 0 <= i < |xs| ==> r[i].id == xs[i].id)
      && (forall y <- xs :: y in r || Some(y) == Find(xs, id))
      && Keyed(id, body) in r && forall y <- r :: y in xs || y == Keyed(id, body)
    decreases |xs|
  {
    assert xs == [xs[0]] + xs[1..];
    if xs[0].id != id {
      ReplaceShape(xs[1..], id, body);
      assert Replace(xs, id, body) == [xs[0]] + Replace(xs[1..], id, body);
    }
  }

  lemma ReplaceIds<T>(xs: seq<Keyed<T>>, id: string, body: T)
    requires id in Ids(xs)
    ensures Ids(Replace(xs, id, body)) == Ids(xs)
    ensures forall i :: 0 <= i < |xs| ==> Replace(xs, id, body)[i].id == xs[i].id
    ensures UniqueIds(xs) ==> UniqueIds(Replace(xs, id, body))
    ensures forall y <- xs :: y in Replace(xs, id, body) || Some(y) == Find(xs, id)
    ensures Keyed(id, body) in Replace(xs, id, body)
    ensures forall y <- Replace(xs, id, body) :: y in xs || y == Keyed(id, body)
  {
    hide Replace, Ids, Find;
    ReplaceShape(xs, id, body);
    SameIds(xs, Replace(xs, id, body));
  }

  lemma SameIds<T>(xs: seq<Keyed<T>>, ys: seq<Keyed<T>>)
    requires |xs| == |ys| && forall i :: 0 <= i < |xs| ==> xs[i].id == ys[i].id
    ensures Ids(xs) == Ids(ys)
  {
    forall x <- xs ensures x.id in Ids(ys) {
      var i :| 0 <= i < |xs| && xs[i] == x;
      assert ys[i] in ys;
    }
    forall y <- ys ensures y.id in Ids(xs) {
      var i :| 0 <= i < |ys| && ys[i] == y;
      assert xs[i] in xs;
    }
  }

  lemma PlanIdsUnique(steps: seq<string>)
    ensures UniqueIds(PlanOf(steps))
  {
    forall i, j | 0 <= i < j < |steps| ensures PlanId(i) != PlanId(j) {
      if PlanId(i) == PlanId(j) {
        assert PlanId(i)[5..] == Dec(i + 1) && PlanId(j)[5..] == Dec(j + 1);
        DecInjective(i + 1, j + 1);
      }
    }
  }

  /** Ids are unique within every list, and no two of the seven non-plan lists share one. */
  predicate IdInv(s: State) {
    && UniqueIds(s.facts) && UniqueIds(s.hyps) && UniqueIds(s.rejected) && UniqueIds(s.artifacts) && UniqueIds(s.plan)
    && UniqueIds(s.pending) && UniqueIds(s.blockers) && UniqueIds(s.questions)
    && Ids(s.facts) !! Ids(s.hyps) !! Ids(s.rejected) !! Ids(s.artifacts) !! Ids(s.pending) !! Ids(s.blockers)
       !! Ids(s.questions)
  }

  lemma {:induction false} ArchiveAllKeepsIds(s: State, ids: seq<string>, reason: string)
    requires IdInv(s) && ArchiveAll(s, ids, reason).Done?
    ensures IdInv(ArchiveAll(s, ids, reason).state)
    ensures exists fs :: ArchiveAll(s, ids, reason).state == s.(facts := fs)
    decreases |ids|
  {
    if ids != [] {
      ArchiveAllKeepsIds(s, ids[..|ids|-1], reason);
      var s1 := ArchiveAll(s, ids[..|ids|-1], reason).state;
      RemoveDropsThatRecord(s1.facts, Find(s1.facts, ids[|ids|-1]).value);
    }
  }

  lemma FactOpKeepsIds(s: State, op: Op, norm: string -> string)
    requires IdInv(s) && IsFactOp(op) && FactOp(s, op, norm).Done?
    ensures IdInv(FactOp(s, op, norm).state)
  {
    match op
    case AddFact(id, st, c, e) => AppendIds(s.facts, Keyed(id, FactBody(st, c, e)));
    case SupersedeFact(id, st, c, e) => ReplaceIds(s.facts, id, FactBody(st, c, e));
    case RemoveFact(id, _) => RemoveDropsThatRecord(s.facts, Find(s.facts, id).value);
    case ArchiveFacts(ids, reason) => ArchiveAllKeepsIds(s, ids, reason);
  }

  lemma HypothesisOpKeepsIds(s: State, op: Op, now: int)
    requires IdInv(s) && IsHypothesisOp(op)
    requires HypothesisOp(s, op, now).Done?
    ensures IdInv(HypothesisOp(s, op, now).state)
  {
    var s' := HypothesisOp(s, op, now).state;
    match op
    case AddHypothesis(id, st, c, e) => AppendIds(s.hyps, Keyed(id, FactBody(st, c, e)));
    case UpdateHypothesis(id, st, c, e) =>
      var b := Find(s.hyps, id).value.body;
      ReplaceIds(s.hyps, id, FactBody(st.GetOr(b.statement), c.GetOr(b.confidence), e.GetOr(b.evidence)));
    case RejectHypothesis(id, reason, e) =>
      if id !in Ids(s.rejected) {
        RemoveDropsThatRecord(s.hyps, Find(s.hyps, id).value);
        AppendIds(s.rejected, s'.rejected[|s.rejected|]);
      }
    case PromoteHypothesis(id, e, c) =>
      if id !in Ids(s.facts) {
        RemoveDropsThatRecord(s.hyps, Find(s.hyps, id).value);
        AppendIds(s.facts, s'.facts[|s.facts|]);
      }
  }

  lemma NewPlanKeepsIds(s: State, plan: seq<PlanStep>)
    requires IdInv(s) && UniqueIds(plan)
    ensures IdInv(s.(plan := plan))
  {}

  lemma PlanOpKeepsIds(s: State, op: Op)
    requires IdInv(s) && IsPlanOp(op) && PlanOp(s, op).Done?
    ensures IdInv(PlanOp(s, op).state)
  {
    if op.AddArtifact? {
      AppendIds(s.artifacts, Keyed(op.id, op.artifact));
    } else if op.RemoveArtifact? {
      RemoveDropsThatRecord(s.artifacts, Find(s.artifacts, op.id).value);
    } else if op.SetPlan? {
      PlanIdsUnique(op.steps);
      NewPlanKeepsIds(s, PlanOf(op.steps));
    } else {
      var body := PlanBody(op.newDescription.GetOr(Find(s.plan, op.id).value.body.description), op.stepStatus);
      ReplaceIds(s.plan, op.id, body);
      NewPlanKeepsIds(s, Replace(s.plan, op.id, body));
    }
  }

  lemma IssueOpKeepsIds(s: State, op: Op)
    requires IdInv(s) && IsIssueOp(op) && IssueOp(s, op).Done?
    ensures IdInv(IssueOp(s, op).state)
  {
    match op
    case AddPendingAction(id, a) => AppendIds(s.pending, Keyed(id, a));
    case CompletePendingAction(id) => RemoveDropsThatRecord(s.pending, Find(s.pending, id).value);
    case AddBlocker(id, d) => AppendIds(s.blockers, Keyed(id, d));
    case RemoveBlocker(id, _) => RemoveDropsThatRecord(s.blockers, Find(s.blockers, id).value);
    case AddQuestion(id, q) => AppendIds(s.questions, Keyed(id, q));
    case ResolveQuestion(id, _) => RemoveDropsThatRecord(s.questions, Find(s.questions, id).value);
  }

  predicate SameLists(s: State, t: State) {
    && s.facts == t.facts && s.hyps == t.hyps && s.rejected == t.rejected && s.artifacts == t.artifacts
       && s.plan == t.plan
    && s.pending == t.pending && s.blockers == t.blockers && s.questions == t.questions
  }

  predicate TouchesLists(op: Op) {
    IsFactOp(op) || IsHypothesisOp(op) || IsPlanOp(op) || IsIssueOp(op)
  }

  lemma OtherOpsKeepLists(s: State, op: Op, norm: string -> string, now: int)
    requires !TouchesLists(op) && ApplyOp(s, op, norm, now).Done?
    ensures SameLists(s, ApplyOp(s, op, norm, now).state)
  {
    hide FactOp, HypothesisOp, PlanOp, IssueOp, Remove;
  }

  lemma SameListsKeepIds(s: State, t: State)
    requires IdInv(s) && SameLists(s, t)
    ensures IdInv(t)
  {}

  lemma OpKeepsIds(s: State, op: Op, norm: string -> string, now: int)
    requires IdInv(s) && ApplyOp(s, op, norm, now).Done?
    ensures IdInv(ApplyOp(s, op, norm, now).state)
  {
    if !TouchesLists(op) {
      OtherOpsKeepLists(s, op, norm, now);
      SameListsKeepIds(s, ApplyOp(s, op, norm, now).state);
    } else {
      if IsFactOp(op) {
        FactOpKeepsIds(s, op, norm);
      } else if IsHypothesisOp(op) {
        HypothesisOpKeepsIds(s, op, now);
      } else if IsPlanOp(op) {
        PlanOpKeepsIds(s, op);
      } else {
        IssueOpKeepsIds(s, op);
      }
    }
  }

  lemma {:induction false} OpsKeepIds(s: State, ops: seq<Op>, norm: string -> string, now: int)
    requires IdInv(s) && ApplyOps(s, ops, norm, now).AllDone?
    ensures IdInv(ApplyOps(s, ops, norm, now).state)
    decreases |ops|
  {
    if ops != [] {
      OpsKeepIds(s, ops[..|ops|-1], norm, now);
      OpKeepsIds(ApplyOps(s, ops[..|ops|-1], norm, now).state, ops[|ops|-1], norm, now);
    }
  }

  // ---- compaction and the final validation ----

  lemma {:induction false} UniqueMeansOnce<T>(xs: seq<Keyed<T>>, x: Keyed<T>)
    requires UniqueIds(xs)
    ensures multiset(xs)[x] <= 1
    decreases |xs|
  {
    if xs != [] {
      var n := |xs| - 1;
      UniqueMeansOnce(xs[..n], x);
      assert xs == xs[..n] + [xs[n]];
      assert xs[n] !in xs[..n];
    }
  }

  lemma PermutationSameMembers<T>(xs: seq<T>, ys: seq<T>)
    requires multiset(xs) == multiset(ys)
    ensures forall y :: y in ys <==> y in xs
  {
    forall y ensures y in ys <==> y in xs {
      assert y in ys <==> y in multiset(ys);
      assert y in xs <==> y in multiset(xs);
    }
  }

  lemma PermutationKeepsIds<T>(xs: seq<Keyed<T>>, ys: seq<Keyed<T>>)
    requires UniqueIds(xs) && multiset(xs) == multiset(ys)
    ensures UniqueIds(ys)
  {
    PermutationSameMembers(xs, ys);
    forall i, j | 0 <= i < j < |ys| ensures ys[i].id != ys[j].id {
      if ys[i] == ys[j] {
        TwiceMeansTwo(ys, i, j);
        UniqueMeansOnce(xs, ys[i]);
      } else {
        assert ys[i] in xs && ys[j] in xs;
      }
    }
  }

  lemma {:induction false} RemoveAllKeepsIds<T>(xs: seq<Keyed<T>>, drop: seq<Keyed<T>>)
    requires UniqueIds(xs) && UniqueIds(drop) && forall y <- drop :: y in xs
    ensures UniqueIds(RemoveAll(xs, drop))
    ensures forall y :: y in RemoveAll(xs, drop) <==> y in xs && y !in drop
    decreases |drop|
  {
    if drop != [] {
      var n := |drop| - 1;
      RemoveAllKeepsIds(xs, drop[..n]);
      assert drop == drop[..n] + [drop[n]];
      if drop[n] in drop[..n] {
        assert false;
      }
      assert drop[n] in RemoveAll(xs, drop[..n]);
      RemoveDropsThatRecord(RemoveAll(xs, drop[..n]), drop[n]);
    }
  }

  predicate IsFinished(p: PlanStep) {
    p.body.status in {StepDone, Skipped}
  }

  lemma {:induction false} FinishedSteps(plan: seq<PlanStep>)
    ensures forall p :: p in Finished(plan) <==> p in plan && IsFinished(p)
    ensures UniqueIds(plan) ==> UniqueIds(Finished(plan))
    decreases |plan|
  {
    hide UniqueIds;
    if plan == [] {
      NoIds<PlanBody>();
    } else {
      var n := |plan| - 1;
      FinishedSteps(plan[..n]);
      assert plan == plan[..n] + [plan[n]];
      OneMoreFinished(plan[..n], Finished(plan[..n]), plan[n]);
    }
  }

  lemma NoIds<T>()
    ensures UniqueIds<T>([])
  {}

  lemma OneMoreFinished(plan: seq<PlanStep>, done: seq<PlanStep>, p: PlanStep)
    requires forall q :: q in done <==> q in plan && IsFinished(q)
    requires UniqueIds(plan) ==> UniqueIds(done)
    ensures var all := done + if IsFinished(p) then [p] else [];
      && (forall q :: q in all <==> q in plan + [p] && IsFinished(q))
      && (UniqueIds(plan + [p]) ==> UniqueIds(all))
  {
    hide UniqueIds, IsFinished;
    assert done + [] == done;
    if UniqueIds(plan + [p]) {
      LastIsNew(plan, p);
      AppendIds(done, p);
    }
  }

  lemma LastIsNew<T>(xs: seq<Keyed<T>>, x: Keyed<T>)
    requires UniqueIds(xs + [x])
    ensures UniqueIds(xs) && x.id !in Ids(xs)
  {
    assert forall i :: 0 <= i < |xs| ==> (xs + [x])[i] == xs[i];
    assert (xs + [x])[|xs|] == x;
  }

  predicate InArchive(archived: seq<Archived>, item: Item) {
    exists a <- archived :: a.item == item
  }

  lemma SpillRejectedItems(rs: seq<RuledOut>)
    ensures forall r :: r in rs <==> InArchive(SpillRejected(rs), RejectedItem(r))
  {
    forall r | r in rs ensures InArchive(SpillRejected(rs), RejectedItem(r)) {
      var i :| 0 <= i < |rs| && rs[i] == r;
      assert SpillRejected(rs)[i] in SpillRejected(rs);
    }
  }

  lemma SpillStepItems(ps: seq<PlanStep>)
    ensures forall p :: p in ps <==> InArchive(SpillSteps(ps), PlanStepItem(p))
  {
    forall p | p in ps ensures InArchive(SpillSteps(ps), PlanStepItem(p)) {
      var i :| 0 <= i < |ps| && ps[i] == p;
      assert SpillSteps(ps)[i] in SpillSteps(ps);
    }
  }

  lemma SplitMembers<T>(xs: seq<T>, k: nat)
    requires k <= |xs|
    ensures forall x :: x in xs <==> x in xs[..k] || x in xs[k..]
  {
    assert xs == xs[..k] + xs[k..];
  }

  /** Compaction of rejected hypotheses brings them under their limit and loses none. */
  lemma CompactRejectedKeeps(s: State, limits: Limits)
    ensures var (s1, a1) := CompactRejected(s, limits);
      && s1 == s.(rejected := s1.rejected) && |s1.rejected| <= limits.maxRejected
      && (forall r :: r in s.rejected <==> r in s1.rejected || InArchive(a1, RejectedItem(r)))
  {
    if |s.rejected| > limits.maxRejected {
      var key := (r: RuledOut) => r.body.rejectedAt;
      var sorted := SortBy(s.rejected, key);
      var k := |s.rejected| - limits.maxRejected;
      SortByCorrect(s.rejected, key);
      PermutationSameMembers(s.rejected, sorted);
      SplitMembers(sorted, k);
      SpillRejectedItems(sorted[..k]);
      CompactRejectedUnfolds(s, limits, sorted);
    }
  }

  lemma CompactRejectedKeepsIds(s: State, limits: Limits)
    requires UniqueIds(s.rejected)
    ensures UniqueIds(CompactRejected(s, limits).0.rejected)
  {
    var key := (r: RuledOut) => r.body.rejectedAt;
    SortByCorrect(s.rejected, key);
    PermutationKeepsIds(s.rejected, SortBy(s.rejected, key));
  }

  /** What compaction spills is never younger than what it keeps. */
  lemma CompactionSpillsOldest(s: State, limits: Limits, r: RuledOut, q: RuledOut)
    requires InArchive(CompactRejected(s, limits).1, RejectedItem(q)) && r in CompactRejected(s, limits).0.rejected
    ensures q.body.rejectedAt <= r.body.rejectedAt
  {
    var key := (r: RuledOut) => r.body.rejectedAt;
    var sorted := SortBy(s.rejected, key);
    var k := |s.rejected| - limits.maxRejected;
    SortByCorrect(s.rejected, key);
    CompactRejectedUnfolds(s, limits, sorted);
    SpillRejectedItems(sorted[..k]);
    SortedSplit(sorted, k);
  }

  lemma SortedSplit(sorted: seq<RuledOut>, k: nat)
    requires k <= |sorted| && SortedBy(sorted, (r: RuledOut) => r.body.rejectedAt)
    ensures forall q, r :: q in sorted[..k] && r in sorted[k..] ==> q.body.rejectedAt <= r.body.rejectedAt
  {
    var key := (r: RuledOut) => r.body.rejectedAt;
    forall q, r | q in sorted[..k] && r in sorted[k..] ensures q.body.rejectedAt <= r.body.rejectedAt {
      var i :| 0 <= i < k && sorted[i] == q;
      var j :| k <= j < |sorted| && sorted[j] == r;
      assert key(sorted[i]) <= key(sorted[j]);
    }
  }

  lemma CompactRejectedUnfolds(s: State, limits: Limits, sorted: seq<RuledOut>)
    requires |s.rejected| > limits.maxRejected && sorted == SortBy(s.rejected, (r: RuledOut) => r.body.rejectedAt)
    ensures var k := |s.rejected| - limits.maxRejected;
      CompactRejected(s, limits) == (s.(rejected := sorted[k..]), SpillRejected(sorted[..k]))
  {}

  lemma CompactPlanKeeps(s: State, limits: Limits)
    requires UniqueIds(s.plan)
    ensures var (s1, a1) := CompactPlan(s, limits);
      && s1 == s.(plan := s1.plan) && UniqueIds(s1.plan)
      && (forall p :: p in s.plan <==> p in s1.plan || InArchive(a1, PlanStepItem(p)))
      && (forall p <- s.plan :: p !in s1.plan ==> IsFinished(p))
  {
    if |s.plan| > limits.maxPlan {
      FinishedSteps(s.plan);
      RemoveAllKeepsIds(s.plan, Finished(s.plan));
      SpillStepItems(Finished(s.plan));
    }
  }

  lemma FewerRejectedKeepIds(s: State, rs: seq<RuledOut>)
    requires IdInv(s) && UniqueIds(rs) && forall r <- rs :: r in s.rejected
    ensures IdInv(s.(rejected := rs))
  {
    assert Ids(rs) <= Ids(s.rejected);
  }

  lemma CompactKeepsIds(s: State, limits: Limits)
    requires IdInv(s)
    ensures IdInv(Compact(s, limits).0)
  {
    var (s1, a1) := CompactRejected(s, limits);
    CompactRejectedKeeps(s, limits);
    CompactRejectedKeepsIds(s, limits);
    FewerRejectedKeepIds(s, s1.rejected);
    CompactPlanKeeps(s1, limits);
    NewPlanKeepsIds(s1, CompactPlan(s1, limits).0.plan);
  }

  /** From a state with good ids an accepted patch leads to a state with good ids. */
  lemma PatchKeepsIds(s: State, patch: Patch, archive: Option<set<string>>, pol: Policy, now: int)
    requires IdInv(s) && ApplyPatch(s, patch, archive, pol, now).Applied?
    ensures IdInv(ApplyPatch(s, patch, archive, pol, now).state)
  {
    OpsKeepIds(s, patch.ops, pol.norm, now);
    var s1 := ApplyOps(s, patch.ops, pol.norm, now).state;
    CompactKeepsIds(s1, pol.limits);
    SameListsKeepIds(Compact(s1, pol.limits).0, ApplyPatch(s, patch, archive, pol, now).state);
  }

  /** The id part of the final validation never fires: only equal statements can make the result invalid. */
  lemma IdValidationNeverFires(s: State, patch: Patch, archive: Option<set<string>>, pol: Policy, now: int)
    requires IdInv(s) && ApplyPatch(s, patch, archive, pol, now) == Refused(InvalidState, None)
    ensures ApplyOps(s, patch.ops, pol.norm, now).AllDone?
    ensures !StatementsOk(Compact(ApplyOps(s, patch.ops, pol.norm, now).state, pol.limits).0, pol.norm)
  {
    OpsKeepIds(s, patch.ops, pol.norm, now);
    CompactKeepsIds(ApplyOps(s, patch.ops, pol.norm, now).state, pol.limits);
  }
}
