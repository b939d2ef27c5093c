/** `apply_patch` as the program runs it: a copy of the state edited in place, operation by operation. */
module Draft {
  import opened Domain
  import opened State
  import opened Sorting
  import opened Apply
  import ApplyFrame

  class Draft {
    var version: nat
    var status: Status
    var counters: Counters
    var maxSteps: nat
    var statement: string
    var criteria: seq<string>
    var phase: string
    var facts: seq<Fact>
    var hyps: seq<Hypothesis>
    var rejected: seq<RuledOut>
    var artifacts: seq<Artifact>
    var plan: seq<PlanStep>
    var pending: seq<PendingAction>
    var blockers: seq<Blocker>
    var questions: seq<Question>
    var environment: Dict
    var entities: map<string, string>
    var constraints: seq<string>
    var domain: Dict
    var metadata: Dict
    var summary: Option<string>
    var archived: seq<Archived>

    function Snapshot(): State
      reads this
    {
      State(version, status, counters, maxSteps, statement, criteria, phase, facts, hyps, rejected, artifacts, plan,
            pending,
            blockers, questions, environment, entities, constraints, domain, metadata, summary)
    }

    /** The deep copy a patch is tried on. */
    constructor (s: State)
      ensures Snapshot() == s && archived == []
    {
      version, status, counters, maxSteps := s.version, s.status, s.counters, s.maxSteps;
      statement, criteria, phase := s.statement, s.criteria, s.phase;
      facts, hyps, rejected, artifacts, plan := s.facts, s.hyps, s.rejected, s.artifacts, s.plan;
      pending, blockers, questions := s.pending, s.blockers, s.questions;
      environment, entities, constraints := s.environment, s.entities, s.constraints;
      domain, metadata, summary := s.domain, s.metadata, s.summary;
      archived := [];
    }

    method Archive(item: Item, reason: string)
      modifies this`archived
      ensures archived == old(archived) + [Archived(item, reason, false)]
    {
      archived := archived + [Archived(item, reason, false)];
    }

    /** `next((i for i in items if i.id == item_id), None)`. */
    static method Search<T(==)>(xs: seq<Keyed<T>>, id: string) returns (r: Option<Keyed<T>>)
      ensures r == Find(xs, id)
    {
      var i := 0;
      while i < |xs|
        invariant i <= |xs| && Find(xs, id) == Find(xs[i..], id)
      {
        if xs[i].id == id {
          return Some(xs[i]);
        }
        assert xs[i..][1..] == xs[i+1..];
        i := i + 1;
      }
      return None;
    }

    method AddFact(op: Op, norm: string -> string) returns (code: Option<Code>)
      requires op.AddFact?
      modifies this`facts
      ensures Agrees(FactOp(old(Snapshot()), op, norm), code, Snapshot(), archived, old(archived))
    {
      if op.evidence == [] {
        return Some(Invalid);
      }
      if op.id in TakenIds(Snapshot()) {
        return Some(DuplicateId);
      }
      var i := 0;
      while i < |hyps|
        invariant i <= |hyps| && forall h <- hyps[..i] :: norm(h.body.statement) != norm(op.statement)
      {
        if norm(hyps[i].body.statement) == norm(op.statement) {
          return Some(PromotionRequired);
        }
        i := i + 1;
      }
      assert hyps[..i] == hyps;
      facts := facts + [Keyed(op.id, FactBody(op.statement, op.confidence, op.evidence))];
      return None;
    }

    method ArchiveFacts(ids: seq<string>, reason: string) returns (code: Option<Code>)
      modifies this`facts, this`archived
      ensures Agrees(ArchiveAll(old(Snapshot()), ids, reason), code, Snapshot(), archived, old(archived))
    {
      hide Remove, Find, ArchiveAll;
      NoneArchived(Snapshot(), reason);
      var i := 0;
      while i < |ids|
        invariant i <= |ids|
        invariant Agrees(ArchiveAll(old(Snapshot()), ids[..i], reason), None, Snapshot(), archived, old(archived))
      {
        OneMoreArchived(old(Snapshot()), ids, i, reason);
        var f := Search(facts, ids[i]);
        if f.None? {
          ArchiveAllStops(old(Snapshot()), ids, i + 1, reason);
          return Some(NotFound);
        }
        facts := Remove(facts, f.value);
        Archive(FactItem(f.value), reason);
        i := i + 1;
      }
      assert ids[..i] == ids;
      return None;
    }

    method SupersedeFact(op: Op, norm: string -> string) returns (code: Option<Code>)
      requires op.SupersedeFact?
      modifies this`facts, this`archived
      ensures Agrees(FactOp(old(Snapshot()), op, norm), code, Snapshot(), archived, old(archived))
    {
      hide Find, Replace;
      var f := Search(facts, op.id);
      if f.None? {
        return Some(NotFound);
      }
      Archive(FactItem(f.value), "superseded by new statement");
      if op.evidence == [] {
        return Some(Invalid);
      }
      facts := Replace(facts, op.id, FactBody(op.statement, op.confidence, op.evidence));
      return None;
    }

    method ApplyFactOp(op: Op, norm: string -> string) returns (code: Option<Code>)
      requires IsFactOp(op)
      modifies this`facts, this`archived
      ensures Agrees(FactOp(old(Snapshot()), op, norm), code, Snapshot(), archived, old(archived))
    {
      hide Find, Remove, ArchiveAll;
      match op
      case AddFact(_, _, _, _) => code := AddFact(op, norm);
      case SupersedeFact(_, _, _, _) => code := SupersedeFact(op, norm);
      case RemoveFact(id, reason) =>
        var f := Search(facts, id);
        if f.None? {
          return Some(NotFound);
        }
        facts := Remove(facts, f.value);
        Archive(FactItem(f.value), reason);
        return None;
      case ArchiveFacts(ids, reason) => code := ArchiveFacts(ids, reason);
    }

    method ApplyHypothesisOp(op: Op, now: int) returns (code: Option<Code>)
      requires IsHypothesisOp(op)
      modifies this`facts, this`hyps, this`rejected
      ensures Agrees(HypothesisOp(old(Snapshot()), op, now), code, Snapshot(), archived, old(archived))
    {
      match op
      case AddHypothesis(id, st, confidence, evidence) =>
        if id in TakenIds(Snapshot()) {
          return Some(DuplicateId);
        }
        hyps := hyps + [Keyed(id, FactBody(st, confidence, evidence))];
        return None;
      case UpdateHypothesis(id, st, confidence, evidence) =>
        var h := Search(hyps, id);
        if h.None? {
          return Some(NotFound);
        }
        var body := h.value.body;
        if st.Some? { body := body.(statement := st.value); }
        if confidence.Some? { body := body.(confidence := confidence.value); }
        if evidence.Some? { body := body.(evidence := evidence.value); }
        hyps := Replace(hyps, id, body);
        return None;
      case RejectHypothesis(_, _, _) => code := Reject(op, now);
      case PromoteHypothesis(_, _, _) => code := Promote(op, now);
    }

    method Reject(op: Op, now: int) returns (code: Option<Code>)
      requires op.RejectHypothesis?
      modifies this`hyps, this`rejected
      ensures Agrees(HypothesisOp(old(Snapshot()), op, now), code, Snapshot(), archived, old(archived))
    {
      var already := Search(rejected, op.id);
      if already.Some? {
        return None;
      }
      var h := Search(hyps, op.id);
      if h.None? {
        return Some(NotFound);
      }
      var evidence := if op.evidence != [] then op.evidence else h.value.body.evidence;
      hyps := Remove(hyps, h.value);
      rejected := rejected + [Keyed(op.id, RuledOutBody(h.value.body.statement, op.reason, evidence, now))];
      return None;
    }

    method Promote(op: Op, now: int) returns (code: Option<Code>)
      requires op.PromoteHypothesis?
      modifies this`facts, this`hyps
      ensures Agrees(HypothesisOp(old(Snapshot()), op, now), code, Snapshot(), archived, old(archived))
    {
      var already := Search(facts, op.id);
      if already.Some? {
        return None;
      }
      var h := Search(hyps, op.id);
      if h.None? {
        return Some(NotFound);
      }
      hyps := Remove(hyps, h.value);
      if op.evidence == [] {
        return Some(Invalid);
      }
      facts := facts + [Keyed(op.id, FactBody(h.value.body.statement, op.confidence, op.evidence))];
      return None;
    }

    method ApplyArtifactOp(op: Op) returns (code: Option<Code>)
      requires op.AddArtifact? || op.RemoveArtifact?
      modifies this`artifacts, this`archived
      ensures Agrees(PlanOp(old(Snapshot()), op), code, Snapshot(), archived, old(archived))
    {
      if op.AddArtifact? {
        if op.id in TakenIds(Snapshot()) {
          return Some(DuplicateId);
        }
        artifacts := artifacts + [Keyed(op.id, op.artifact)];
      } else {
        var a := Search(artifacts, op.id);
        if a.None? {
          return Some(NotFound);
        }
        artifacts := Remove(artifacts, a.value);
        Archive(ArtifactItem(a.value), op.reason);
      }
      return None;
    }

    method ApplyStepsOp(op: Op) returns (code: Option<Code>)
      requires op.SetPlan? || op.UpdatePlanStep?
      modifies this`plan, this`archived
      ensures Agrees(PlanOp(old(Snapshot()), op), code, Snapshot(), archived, old(archived))
    {
      if op.SetPlan? {
        if plan != [] {
          Archive(PlanItem(plan), "plan replaced");
        }
        plan := PlanOf(op.steps);
      } else {
        var p := Search(plan, op.id);
        if p.None? {
          return Some(NotFound);
        }
        var body := p.value.body.(status := op.stepStatus);
        if op.newDescription.Some? {
          body := body.(description := op.newDescription.value);
        }
        plan := Replace(plan, op.id, body);
      }
      return None;
    }

    method ApplyPlanOp(op: Op) returns (code: Option<Code>)
      requires IsPlanOp(op)
      modifies this`artifacts, this`plan, this`archived
      ensures Agrees(PlanOp(old(Snapshot()), op), code, Snapshot(), archived, old(archived))
    {
      hide PlanOp, Agrees;
      if op.AddArtifact? || op.RemoveArtifact? {
        code := ApplyArtifactOp(op);
      } else {
        code := ApplyStepsOp(op);
      }
    }

    method ApplyPendingOp(op: Op) returns (code: Option<Code>)
      requires op.AddPendingAction? || op.CompletePendingAction?
      modifies this`pending, this`archived
      ensures Agrees(IssueOp(old(Snapshot()), op), code, Snapshot(), archived, old(archived))
    {
      if op.AddPendingAction? {
        if op.id in TakenIds(Snapshot()) {
          return Some(DuplicateId);
        }
        pending := pending + [Keyed(op.id, op.action)];
      } else {
        var x := Search(pending, op.id);
        if x.None? {
          return Some(NotFound);
        }
        pending := Remove(pending, x.value);
        Archive(PendingItem(x.value), "completed");
      }
      return None;
    }

    method ApplyBlockerOp(op: Op) returns (code: Option<Code>)
      requires op.AddBlocker? || op.RemoveBlocker?
      modifies this`blockers, this`archived
      ensures Agrees(IssueOp(old(Snapshot()), op), code, Snapshot(), archived, old(archived))
    {
      if op.AddBlocker? {
        if op.id in TakenIds(Snapshot()) {
          return Some(DuplicateId);
        }
        blockers := blockers + [Keyed(op.id, op.description)];
      } else {
        var x := Search(blockers, op.id);
        if x.None? {
          return Some(NotFound);
        }
        blockers := Remove(blockers, x.value);
        Archive(BlockerItem(x.value), op.reason);
      }
      return None;
    }

    method ApplyQuestionOp(op: Op) returns (code: Option<Code>)
      requires op.AddQuestion? || op.ResolveQuestion?
      modifies this`questions, this`archived
      ensures Agrees(IssueOp(old(Snapshot()), op), code, Snapshot(), archived, old(archived))
    {
      if op.AddQuestion? {
        if op.id in TakenIds(Snapshot()) {
          return Some(DuplicateId);
        }
        questions := questions + [Keyed(op.id, op.question)];
      } else {
        var x := Search(questions, op.id);
        if x.None? {
          return Some(NotFound);
        }
        questions := Remove(questions, x.value);
        Archive(QuestionItem(x.value, op.answer), "resolved");
      }
      return None;
    }

    method ApplyTableOp(op: Op) returns (code: Option<Code>)
      requires IsTableOp(op)
      modifies this`environment, this`entities, this`constraints, this`archived
      ensures Agrees(TableOp(old(Snapshot()), op), code, Snapshot(), archived, old(archived))
    {
      hide TableOp, Agrees;
      if op.SetEnvironment? || op.ClearEnvironment? {
        code := ApplyEnvironmentOp(op);
      } else if op.SetEntity? || op.RemoveEntity? {
        code := ApplyEntityOp(op);
      } else {
        code := ApplyConstraintOp(op);
      }
    }

    method ApplyEnvironmentOp(op: Op) returns (code: Option<Code>)
      requires op.SetEnvironment? || op.ClearEnvironment?
      modifies this`environment, this`archived
      ensures Agrees(TableOp(old(Snapshot()), op), code, Snapshot(), archived, old(archived))
    {
      match op
      case SetEnvironment(key, value) =>
        environment := environment[key := value];
        return None;
      case ClearEnvironment(key) =>
        if key !in environment {
          return Some(NotFound);
        }
        Archive(EnvironmentItem(key, environment[key]), "cleared");
        environment := environment - {key};
        return None;
    }

    method ApplyEntityOp(op: Op) returns (code: Option<Code>)
      requires op.SetEntity? || op.RemoveEntity?
      modifies this`entities, this`archived
      ensures Agrees(TableOp(old(Snapshot()), op), code, Snapshot(), archived, old(archived))
    {
      match op
      case SetEntity(name, description) =>
        entities := entities[name := description];
        return None;
      case RemoveEntity(name) =>
        if name !in entities {
          return Some(NotFound);
        }
        Archive(EntityItem(name, entities[name]), "removed");
        entities := entities - {name};
        return None;
    }

    method ApplyConstraintOp(op: Op) returns (code: Option<Code>)
      requires op.AddConstraint? || op.RemoveConstraint?
      modifies this`constraints, this`archived
      ensures Agrees(TableOp(old(Snapshot()), op), code, Snapshot(), archived, old(archived))
    {
      hide Remove;
      match op
      case AddConstraint(c) =>
        if c !in constraints {
          constraints := constraints + [c];
        }
        return None;
      case RemoveConstraint(c) =>
        if c !in constraints {
          return Some(NotFound);
        }
        constraints := Remove(constraints, c);
        Archive(ConstraintItem(c), "removed");
        return None;
    }

    method ApplyStatusOp(st: Status) returns (code: Option<Code>)
      modifies this`status
      ensures Agrees(ScalarOp(old(Snapshot()), SetStatus(st)), code, Snapshot(), archived, old(archived))
    {
      if st !in MODEL_SETTABLE {
        return Some(ForbiddenStatus);
      }
      if st != status && st !in Transitions(status) {
        return Some(BadTransition);
      }
      status := st;
      return None;
    }

    method ApplyObjectiveOp(op: Op) returns (code: Option<Code>)
      requires op.SetPhase? || op.SetObjective?
      modifies this`phase, this`statement, this`criteria
      ensures Agrees(ScalarOp(old(Snapshot()), op), code, Snapshot(), archived, old(archived))
    {
      hide Option.GetOr;
      if op.SetPhase? {
        phase := op.phase;
      } else {
        statement := op.newStatement.GetOr(statement);
        criteria := op.newCriteria.GetOr(criteria);
      }
      return None;
    }

    method ApplyScalarOp(op: Op) returns (code: Option<Code>)
      requires IsScalarOp(op)
      modifies this`phase, this`status, this`statement, this`criteria, this`summary, this`metadata
      ensures Agrees(ScalarOp(old(Snapshot()), op), code, Snapshot(), archived, old(archived))
    {
      hide MODEL_SETTABLE, Transitions, Option.GetOr;
      code := None;
      if op.SetStatus? {
        code := ApplyStatusOp(op.status);
      } else if op.SetPhase? || op.SetObjective? {
        code := ApplyObjectiveOp(op);
      } else if op.SetObservationSummary? {
        summary := if op.text == "" then None else Some(op.text);
      } else {
        metadata := metadata[op.key := op.value];
      }
    }

    method ApplyDomainOp(op: Op) returns (code: Option<Code>)
      requires op.SetPath? || op.AdjustPath? || op.DeletePath?
      modifies this`domain, this`archived
      ensures Agrees(EditDomain(old(Snapshot()), op.path, EditOf(op)), code, Snapshot(), archived, old(archived))
    {
      var before := domain;
      var edited := Edit(domain, op.path, EditOf(op));
      if edited.Err? {
        return Some(edited.code);
      }
      domain := edited.value;
      if op.DeletePath? {
        Archive(DomainItem(op.path, Lookup(before, op.path).GetOr(Null)), "deleted");
      }
      return None;
    }

    /** `_apply_op`: either the edited draft is what the specification says, or the same refusal is raised. */
    method ApplyOne(op: Op, norm: string -> string, now: int) returns (code: Option<Code>)
      modifies this
      ensures Agrees(ApplyOp(old(Snapshot()), op, norm, now), code, Snapshot(), archived, old(archived))
    {
      if IsFactOp(op) {
        code := ApplyFactOp(op, norm);
      } else if IsHypothesisOp(op) {
        code := ApplyHypothesisOp(op, now);
      } else if IsPlanOp(op) {
        code := ApplyPlanOp(op);
      } else if IsIssueOp(op) {
        if op.AddPendingAction? || op.CompletePendingAction? {
          code := ApplyPendingOp(op);
        } else if op.AddBlocker? || op.RemoveBlocker? {
          code := ApplyBlockerOp(op);
        } else {
          code := ApplyQuestionOp(op);
        }
      } else if IsTableOp(op) {
        code := ApplyTableOp(op);
      } else if IsScalarOp(op) {
        code := ApplyScalarOp(op);
      } else {
        code := ApplyDomainOp(op);
      }
    }

    method SpillOldestRejected(limits: Limits)
      modifies this`rejected, this`archived
      ensures Snapshot() == CompactRejected(old(Snapshot()), limits).0
      ensures archived == old(archived) + CompactRejected(old(Snapshot()), limits).1
    {
      if |rejected| > limits.maxRejected {
        var overflow := |rejected| - limits.maxRejected;
        var sorted := SortBy(rejected, (r: RuledOut) => r.body.rejectedAt);
        archived := archived + SpillRejected(sorted[..overflow]);
        rejected := sorted[overflow..];
      }
    }

    method SpillFinishedSteps(limits: Limits)
      modifies this`plan, this`archived
      ensures Snapshot() == CompactPlan(old(Snapshot()), limits).0
      ensures archived == old(archived) + CompactPlan(old(Snapshot()), limits).1
    {
      if |plan| > limits.maxPlan {
        var done := Finished(plan);
        var i := 0;
        while i < |done|
          invariant i <= |done|
          invariant plan == RemoveAll(old(plan), done[..i])
          invariant archived == old(archived) + SpillSteps(done[..i])
        {
          assert done[..i+1][..i] == done[..i];
          assert SpillSteps(done[..i+1]) == SpillSteps(done[..i])
              + [Archived(PlanStepItem(done[i]), "compaction: finished plan step", true)];
          plan := Remove(plan, done[i]);
          archived := archived + [Archived(PlanStepItem(done[i]), "compaction: finished plan step", true)];
          i := i + 1;
        }
        assert done[..i] == done;
      }
    }

    /** `_compact`: spills the oldest rejected hypotheses, then the finished plan steps. */
    method CompactInPlace(limits: Limits)
      modifies this`rejected, this`plan, this`archived
      ensures Snapshot() == Compact(old(Snapshot()), limits).0
      ensures archived == old(archived) + Compact(old(Snapshot()), limits).1
    {
      SpillOldestRejected(limits);
      SpillFinishedSteps(limits);
    }
  }

  /** The code raised and the draft left behind are those of the specification; a refused draft is thrown away. */
  predicate Agrees(spec: OpResult, code: Option<Code>, s: State, archived: seq<Archived>, before: seq<Archived>) {
    match spec
    case Rejected(c) => code == Some(c)
    case Done(t, a) => code.None? && s == t && archived == before + a
  }

  lemma NoneArchived(s: State, reason: string)
    ensures ArchiveAll(s, [], reason) == Put(s)
  {}

  lemma OneMoreArchived(s: State, ids: seq<string>, i: nat, reason: string)
    requires i < |ids| && ArchiveAll(s, ids[..i], reason).Done?
    ensures var r := ArchiveAll(s, ids[..i], reason); var f := Find(r.state.facts, ids[i]);
      ArchiveAll(s, ids[..i+1], reason)
      == if f.None? then Rejected(NotFound)
         else Done(r.state.(facts := Remove(r.state.facts, f.value)),
                   r.archived + [Archived(FactItem(f.value), reason, false)])
  {
    hide Find, Remove;
    assert ids[..i+1][..i] == ids[..i];
  }

  lemma {:induction false} ArchiveAllStops(s: State, ids: seq<string>, i: nat, reason: string)
    requires i <= |ids| && ArchiveAll(s, ids[..i], reason).Rejected?
    ensures ArchiveAll(s, ids, reason) == ArchiveAll(s, ids[..i], reason)
    decreases |ids| - i
  {
    if i == |ids| {
      assert ids[..i] == ids;
    } else {
      assert ids[..i+1][..i] == ids[..i];
      ArchiveAllStops(s, ids, i + 1, reason);
    }
  }

  lemma {:induction false} OpsStop(s: State, ops: seq<Op>, i: nat, norm: string -> string, now: int)
    requires i <= |ops| && ApplyOps(s, ops[..i], norm, now).RejectedAt?
    ensures ApplyOps(s, ops, norm, now) == ApplyOps(s, ops[..i], norm, now)
    decreases |ops| - i
  {
    if i == |ops| {
      assert ops[..i] == ops;
    } else {
      assert ops[..i+1][..i] == ops[..i];
      OpsStop(s, ops, i + 1, norm, now);
    }
  }

  /** The operations in order on the draft; a refusal names the operation. */
  method ApplyInOrder(draft: Draft, ops: seq<Op>, norm: string -> string,
                      now: int) returns (refusal: Option<(Code, nat)>)
    requires draft.archived == []
    modifies draft
    ensures match ApplyOps(old(draft.Snapshot()), ops, norm, now)
            case AllDone(s, a) => refusal.None? && draft.Snapshot() == s && draft.archived == a
            case RejectedAt(code, i) => refusal == Some((code, i))
  {
    ghost var s := draft.Snapshot();
    var i := 0;
    while i < |ops|
      invariant i <= |ops|
      invariant ApplyOps(s, ops[..i], norm, now) == AllDone(draft.Snapshot(), draft.archived)
    {
      assert ops[..i+1][..i] == ops[..i];
      var code := draft.ApplyOne(ops[i], norm, now);
      hide ApplyOp;
      if code.Some? {
        assert ApplyOps(s, ops[..i+1], norm, now) == RejectedAt(code.value, i);
        OpsStop(s, ops, i + 1, norm, now);
        return Some((code.value, i));
      }
      i := i + 1;
    }
    assert ops[..i] == ops;
    return None;
  }

  /** `_check_unique_ids`: one pass that remembers the ids seen. */
  method CheckUniqueIds<T>(xs: seq<Keyed<T>>) returns (ok: bool)
    ensures ok == UniqueIds(xs)
  {
    var seen: set<string> := {};
    for i := 0 to |xs|
      invariant seen == (set k | 0 <= k < i :: xs[k].id)
      invariant forall j, k :: 0 <= j < k < i ==> xs[j].id != xs[k].id
    {
      if xs[i].id in seen {
        return false;
      }
      seen := seen + {xs[i].id};
    }
    return true;
  }

  /** `_check_integrity`, its part on ids: no repeated id in a list, and no id both a fact and a hypothesis. */
  method CheckIds(s: State) returns (ok: bool)
    ensures ok == IdsOk(s)
  {
    hide UniqueIds, Ids;
    var facts := CheckUniqueIds(s.facts);
    var hyps := CheckUniqueIds(s.hyps);
    var rejected := CheckUniqueIds(s.rejected);
    var artifacts := CheckUniqueIds(s.artifacts);
    var plan := CheckUniqueIds(s.plan);
    var pending := CheckUniqueIds(s.pending);
    var blockers := CheckUniqueIds(s.blockers);
    var questions := CheckUniqueIds(s.questions);
    ok := facts && hyps && rejected && artifacts && plan && pending && blockers && questions
        && Ids(s.facts) !! Ids(s.hyps);
  }

  /** Compaction, limits, schema, new version, validation, size: the end of an accepted patch. */
  method FinishDraft(draft: Draft, version: nat, pol: Policy) returns (r: Application)
    requires version == draft.version
    modifies draft
    ensures r == Finish(old(draft.Snapshot()), old(draft.archived), version, pol)
  {
    draft.CompactInPlace(pol.limits);
    hide Compact, WithinLimits, IdsOk, StatementsOk;
    var s1 := draft.Snapshot();
    if !WithinLimits(s1, pol.limits) {
      return Refused(LimitExceeded, None);
    }
    if pol.schema.Some? && !pol.schema.value(s1.domain) {
      return Refused(SchemaViolation, None);
    }
    draft.version := version + 1;
    var s2 := draft.Snapshot();
    var idsOk := CheckIds(s2);
    if !(idsOk && StatementsOk(s2, pol.norm)) {
      return Refused(InvalidState, None);
    }
    if pol.size(s2) > pol.limits.maxBytes {
      return Refused(TooLarge, None);
    }
    return Applied(s2, draft.archived);
  }

  /** `apply_patch`: decides exactly as the specification does, and never touches the state it was given. */
  method ApplyPatch(s: State, patch: Patch, archive: Option<set<string>>, pol: Policy,
                    now: int) returns (r: Application)
    ensures r == Apply.ApplyPatch(s, patch, archive, pol, now)
  {
    hide ApplyOps, Finish, Apply.CheckEvidence;
    if patch.expected != s.version {
      return Refused(Stale, None);
    }
    if s.status in TERMINAL && patch.ops != [] {
      return Refused(Terminal, None);
    }
    var refusal := Apply.CheckEvidence(patch.ops, archive);
    if refusal.Some? {
      return Refused(refusal.value.0, Some(refusal.value.1));
    }
    var draft := new Draft(s);
    refusal := ApplyInOrder(draft, patch.ops, pol.norm, now);
    if refusal.Some? {
      return Refused(refusal.value.0, Some(refusal.value.1));
    }
    assert draft.version == s.version by {
      OpsKeepVersion(s, patch.ops, pol.norm, now);
    }
    r := FinishDraft(draft, s.version, pol);
  }

  lemma OpsKeepVersion(s: State, ops: seq<Op>, norm: string -> string, now: int)
    requires ApplyOps(s, ops, norm, now).AllDone?
    ensures ApplyOps(s, ops, norm, now).state.version == s.version
  {
    ApplyFrame.OpsFrame(s, ops, norm, now);
  }
}
