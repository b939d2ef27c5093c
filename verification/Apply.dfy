/** What applying a patch means: the specification of `apply_patch`. */
module Apply {
  import opened Domain
  import opened State
  import opened Sorting

  datatype Limits = Limits(
    maxBytes: nat, maxFacts: nat, maxHyps: nat, maxRejected: nat, maxArtifacts: nat, maxPlan: nat, maxPending: nat,
    maxBlockers: nat, maxQuestions: nat, maxEntities: nat, maxEnvironment: nat, maxConstraints: nat, maxMetadata: nat)

  /** Limits plus the three things the model leaves abstract: text normalisation, byte size and the domain schema. */
  datatype Policy = Policy(limits: Limits, norm: string -> string, size: State -> nat, schema: Option<Dict -> bool>)

  datatype OpResult = Done(state: State, archived: seq<Archived>) | Rejected(code: Code)

  function Put(s: State): OpResult { Done(s, []) }

  function Spill(s: State, item: Item, reason: string): OpResult {
    Done(s, [Archived(item, reason, false)])
  }

  function ArchiveAll(s: State, ids: seq<string>, reason: string): OpResult {
    if ids == [] then Put(s)
    else
      match ArchiveAll(s, ids[..|ids|-1], reason)
      case Rejected(c) => Rejected(c)
      case Done(s1, a1) =>
        match Find(s1.facts, ids[|ids|-1])
        case None => Rejected(NotFound)
        case Some(f) => Done(s1.(facts := Remove(s1.facts, f)), a1 + [Archived(FactItem(f), reason, false)])
  }

  function PlanOf(steps: seq<string>): (plan: seq<PlanStep>)
    ensures |plan| == |steps|
    ensures forall i :: 0 <= i < |steps| ==> plan[i] == Keyed(PlanId(i), PlanBody(steps[i], StepPending))
  {
    seq(|steps|, i requires 0 <= i < |steps| => Keyed(PlanId(i), PlanBody(steps[i], StepPending)))
  }

  function EditDomain(s: State, p: Path, e: LeafEdit): OpResult {
    match Edit(s.domain, p, e)
    case Err(c) => Rejected(c)
    case Ok(d) =>
      if e.Delete? then Spill(s.(domain := d), DomainItem(p, Lookup(s.domain, p).GetOr(Null)), "deleted")
      else Put(s.(domain := d))
  }

  function EditOf(op: Op): LeafEdit
    requires op.SetPath? || op.AdjustPath? || op.DeletePath?
  {
    if op.SetPath? then Set(op.value) else if op.AdjustPath? then Adjust(op.delta, op.dropAtZero) else Delete
  }

  predicate IsFactOp(op: Op) {
    op.AddFact? || op.SupersedeFact? || op.RemoveFact? || op.ArchiveFacts?
  }

  predicate IsHypothesisOp(op: Op) {
    op.AddHypothesis? || op.UpdateHypothesis? || op.RejectHypothesis? || op.PromoteHypothesis?
  }

  predicate IsPlanOp(op: Op) {
    op.AddArtifact? || op.RemoveArtifact? || op.SetPlan? || op.UpdatePlanStep?
  }

  predicate IsIssueOp(op: Op) {
    op.AddPendingAction? || op.CompletePendingAction? || op.AddBlocker? || op.RemoveBlocker? || op.AddQuestion?
        || op.ResolveQuestion?
  }

  predicate IsTableOp(op: Op) {
    op.SetEnvironment? || op.ClearEnvironment? || op.SetEntity? || op.RemoveEntity? || op.AddConstraint?
        || op.RemoveConstraint?
  }

  predicate IsScalarOp(op: Op) {
    op.SetPhase? || op.SetStatus? || op.SetObjective? || op.SetObservationSummary? || op.SetMetadata?
  }

  function FactOp(s: State, op: Op, norm: string -> string): OpResult
    requires IsFactOp(op)
  {
    match op
    case AddFact(id, statement, confidence, evidence) =>
      if evidence == [] then Rejected(Invalid)
      else if id in TakenIds(s) then Rejected(DuplicateId)
      else if exists h <- s.hyps :: norm(h.body.statement) == norm(statement) then Rejected(PromotionRequired)
      else Put(s.(facts := s.facts + [Keyed(id, FactBody(statement, confidence, evidence))]))
    case SupersedeFact(id, statement, confidence, evidence) =>
      (match Find(s.facts, id)
       case None => Rejected(NotFound)
       case Some(f) =>
         if evidence == [] then Rejected(Invalid)
         else Spill(s.(facts := Replace(s.facts, id, FactBody(statement, confidence, evidence))), FactItem(f),
                    "superseded by new statement"))
    case RemoveFact(id, reason) =>
      (match Find(s.facts, id)
       case None => Rejected(NotFound)
       case Some(f) => Spill(s.(facts := Remove(s.facts, f)), FactItem(f), reason))
    case ArchiveFacts(ids, reason) => ArchiveAll(s, ids, reason)
  }

  function HypothesisOp(s: State, op: Op, now: int): OpResult
    requires IsHypothesisOp(op)
  {
    match op
    case AddHypothesis(id, statement, confidence, evidence) =>
      if id in TakenIds(s) then Rejected(DuplicateId)
      else Put(s.(hyps := s.hyps + [Keyed(id, FactBody(statement, confidence, evidence))]))
    case UpdateHypothesis(id, statement, confidence, evidence) =>
      (match Find(s.hyps, id)
       case None => Rejected(NotFound)
       case Some(h) =>
         Put(s.(hyps := Replace(s.hyps, id, FactBody(
                                  statement.GetOr(h.body.statement), confidence.GetOr(h.body.confidence),
                                      evidence.GetOr(h.body.evidence))))))
    case RejectHypothesis(id, reason, evidence) =>
      if id in Ids(s.rejected) then Put(s)
      else
        (match Find(s.hyps, id)
         case None => Rejected(NotFound)
         case Some(h) =>
           var cited := if evidence != [] then evidence else h.body.evidence;
           Put(s.(hyps := Remove(s.hyps, h),
                  rejected := s.rejected + [Keyed(id, RuledOutBody(h.body.statement, reason, cited, now))])))
    case PromoteHypothesis(id, evidence, confidence) =>
      if id in Ids(s.facts) then Put(s)
      else
        (match Find(s.hyps, id)
         case None => Rejected(NotFound)
         case Some(h) =>
           if evidence == [] then Rejected(Invalid)
           else Put(s.(hyps := Remove(s.hyps, h),
                       facts := s.facts + [Keyed(id, FactBody(h.body.statement, confidence, evidence))])))
  }

  function PlanOp(s: State, op: Op): OpResult
    requires IsPlanOp(op)
  {
    match op
    case AddArtifact(id, artifact) =>
      if id in TakenIds(s) then Rejected(DuplicateId) else Put(s.(artifacts := s.artifacts + [Keyed(id, artifact)]))
    case RemoveArtifact(id, reason) =>
      (match Find(s.artifacts, id)
       case None => Rejected(NotFound)
       case Some(a) => Spill(s.(artifacts := Remove(s.artifacts, a)), ArtifactItem(a), reason))
    case SetPlan(steps) =>
      if s.plan == [] then Put(s.(plan := PlanOf(steps)))
      else Spill(s.(plan := PlanOf(steps)), PlanItem(s.plan), "plan replaced")
    case UpdatePlanStep(id, status, description) =>
      (match Find(s.plan, id)
       case None => Rejected(NotFound)
       case Some(p) => Put(s.(plan := Replace(s.plan, id, PlanBody(description.GetOr(p.body.description), status)))))
  }

  function IssueOp(s: State, op: Op): OpResult
    requires IsIssueOp(op)
  {
    match op
    case AddPendingAction(id, action) =>
      if id in TakenIds(s) then Rejected(DuplicateId) else Put(s.(pending := s.pending + [Keyed(id, action)]))
    case CompletePendingAction(id) =>
      (match Find(s.pending, id)
       case None => Rejected(NotFound)
       case Some(a) => Spill(s.(pending := Remove(s.pending, a)), PendingItem(a), "completed"))
    case AddBlocker(id, description) =>
      if id in TakenIds(s) then Rejected(DuplicateId) else Put(s.(blockers := s.blockers + [Keyed(id, description)]))
    case RemoveBlocker(id, reason) =>
      (match Find(s.blockers, id)
       case None => Rejected(NotFound)
       case Some(b) => Spill(s.(blockers := Remove(s.blockers, b)), BlockerItem(b), reason))
    case AddQuestion(id, question) =>
      if id in TakenIds(s) then Rejected(DuplicateId) else Put(s.(questions := s.questions + [Keyed(id, question)]))
    case ResolveQuestion(id, answer) =>
      (match Find(s.questions, id)
       case None => Rejected(NotFound)
       case Some(q) => Spill(s.(questions := Remove(s.questions, q)), QuestionItem(q, answer), "resolved"))
  }

  function TableOp(s: State, op: Op): OpResult
    requires IsTableOp(op)
  {
    match op
    case SetEnvironment(key, value) => Put(s.(environment := s.environment[key := value]))
    case ClearEnvironment(key) =>
      if key !in s.environment then Rejected(NotFound)
      else Spill(s.(environment := s.environment - {key}), EnvironmentItem(key, s.environment[key]), "cleared")
    case SetEntity(name, description) => Put(s.(entities := s.entities[name := description]))
    case RemoveEntity(name) =>
      if name !in s.entities then Rejected(NotFound)
      else Spill(s.(entities := s.entities - {name}), EntityItem(name, s.entities[name]), "removed")
    case AddConstraint(c) => Put(if c in s.constraints then s else s.(constraints := s.constraints + [c]))
    case RemoveConstraint(c) =>
      if c !in s.constraints then Rejected(NotFound)
      else Spill(s.(constraints := Remove(s.constraints, c)), ConstraintItem(c), "removed")
  }

  function ScalarOp(s: State, op: Op): OpResult
    requires IsScalarOp(op)
  {
    match op
    case SetPhase(phase) => Put(s.(phase := phase))
    case SetStatus(status) =>
      if status !in MODEL_SETTABLE then Rejected(ForbiddenStatus)
      else if status != s.status && status !in Transitions(s.status) then Rejected(BadTransition)
      else Put(s.(status := status))
    case SetObjective(statement, criteria) =>
      Put(s.(statement := statement.GetOr(s.statement), criteria := criteria.GetOr(s.criteria)))
    case SetObservationSummary(text) => Put(s.(summary := if text == "" then None else Some(text)))
    case SetMetadata(key, value) => Put(s.(metadata := s.metadata[key := value]))
  }

  function ApplyOp(s: State, op: Op, norm: string -> string, now: int): OpResult {
    if IsFactOp(op) then FactOp(s, op, norm)
    else if IsHypothesisOp(op) then HypothesisOp(s, op, now)
    else if IsPlanOp(op) then PlanOp(s, op)
    else if IsIssueOp(op) then IssueOp(s, op)
    else if IsTableOp(op) then TableOp(s, op)
    else if IsScalarOp(op) then ScalarOp(s, op)
    else EditDomain(s, op.path, EditOf(op))
  }

  datatype OpsResult = AllDone(state: State, archived: seq<Archived>) | RejectedAt(code: Code, index: nat)

  /** The operations in order; the first one that fails rejects them all and is named by its index. */
  function ApplyOps(s: State, ops: seq<Op>, norm: string -> string, now: int): OpsResult {
    if ops == [] then AllDone(s, [])
    else
      var n := |ops| - 1;
      match ApplyOps(s, ops[..n], norm, now)
      case RejectedAt(c, i) => RejectedAt(c, i)
      case AllDone(s1, a1) =>
        match ApplyOp(s1, ops[n], norm, now)
        case Rejected(c) => RejectedAt(c, n)
        case Done(s2, a2) => AllDone(s2, a1 + a2)
  }

  // ---- evidence ----

  /** The event ids an operation cites; an artifact without origin, or with an empty one, cites nothing. */
  function Citations(op: Op): seq<string> {
    match op
    case AddFact(_, _, _, evidence) => evidence
    case SupersedeFact(_, _, _, evidence) => evidence
    case PromoteHypothesis(_, evidence, _) => evidence
    case AddHypothesis(_, _, _, evidence) => evidence
    case UpdateHypothesis(_, _, _, evidence) => evidence.GetOr([])
    case RejectHypothesis(_, _, evidence) => evidence
    case AddArtifact(_, artifact) => OriginCitation(artifact)
    case _ => []
  }

  function OriginCitation(a: ArtifactBody): seq<string> {
    if a.origin.Some? && a.origin.value != "" then [a.origin.value] else []
  }

  predicate NeedsEvidence(op: Op) {
    op.AddFact? || op.SupersedeFact? || op.PromoteHypothesis?
  }

  function FirstIndex(ops: seq<Op>, bad: Op -> bool): (r: Option<nat>)
    ensures r.Some? ==> r.value < |ops| && bad(ops[r.value]) && forall j :: 0 <= j < r.value ==> !bad(ops[j])
    ensures r.None? ==> forall op <- ops :: !bad(op)
  {
    if ops == [] then None
    else if bad(ops[0]) then Some(0)
    else match FirstIndex(ops[1..], bad) case None => None case Some(i) => Some(i + 1)
  }

  /** The refusal the evidence check raises, if any; without an archive to ask, only missing evidence is noticed. */
  function CheckEvidence(ops: seq<Op>, archive: Option<set<string>>): Option<(Code, nat)> {
    match FirstIndex(ops, op => NeedsEvidence(op) && Citations(op) == [])
    case Some(i) => Some((MissingEvidence, i))
    case None =>
      if archive.None? then None
      else
        match FirstIndex(ops, op => exists e <- Citations(op) :: e !in archive.value)
        case Some(i) => Some((UnknownEvidence, i))
        case None => None
  }

  // ---- compaction, limits, validation ----

  function Finished(plan: seq<PlanStep>): seq<PlanStep> {
    if plan == [] then []
    else Finished(plan[..|plan|-1]) + if plan[|plan|-1].body.status in {StepDone, Skipped} then [plan[|plan|-1]] else []
  }

  function RemoveAll<T(==)>(xs: seq<T>, drop: seq<T>): seq<T> {
    if drop == [] then xs else Remove(RemoveAll(xs, drop[..|drop|-1]), drop[|drop|-1])
  }

  function SpillRejected(rs: seq<RuledOut>): (r: seq<Archived>)
    ensures |r| == |rs|
    ensures forall i :: 0 <= i < |rs| ==>
      r[i] == Archived(RejectedItem(rs[i]), "compaction: max_rejected_hypotheses", true)
  {
    seq(|rs|, i requires 0 <= i < |rs| => Archived(RejectedItem(rs[i]), "compaction: max_rejected_hypotheses", true))
  }

  function SpillSteps(ps: seq<PlanStep>): (r: seq<Archived>)
    ensures |r| == |ps|
    ensures forall i :: 0 <= i < |ps| ==> r[i] == Archived(PlanStepItem(ps[i]), "compaction: finished plan step", true)
  {
    seq(|ps|, i requires 0 <= i < |ps| => Archived(PlanStepItem(ps[i]), "compaction: finished plan step", true))
  }

  /** Spills the oldest rejected hypotheses over their limit. */
  function CompactRejected(s: State, limits: Limits): (State, seq<Archived>) {
    if |s.rejected| <= limits.maxRejected then (s, [])
    else
      var sorted := SortBy(s.rejected, (r: RuledOut) => r.body.rejectedAt);
      var overflow := |s.rejected| - limits.maxRejected;
      (s.(rejected := sorted[overflow..]), SpillRejected(sorted[..overflow]))
  }

  /** Spills all finished plan steps once the plan is over its limit. */
  function CompactPlan(s: State, limits: Limits): (State, seq<Archived>) {
    if |s.plan| <= limits.maxPlan then (s, [])
    else (s.(plan := RemoveAll(s.plan, Finished(s.plan))), SpillSteps(Finished(s.plan)))
  }

  function Compact(s: State, limits: Limits): (State, seq<Archived>) {
    var (s1, a1) := CompactRejected(s, limits);
    var (s2, a2) := CompactPlan(s1, limits);
    (s2, a1 + a2)
  }

  predicate WithinLimits(s: State, l: Limits) {
    && |s.facts| <= l.maxFacts && |s.hyps| <= l.maxHyps && |s.artifacts| <= l.maxArtifacts && |s.plan| <= l.maxPlan
    && |s.pending| <= l.maxPending && |s.blockers| <= l.maxBlockers && |s.questions| <= l.maxQuestions
    && |s.entities| <= l.maxEntities && |s.environment| <= l.maxEnvironment && |s.constraints| <= l.maxConstraints
    && |s.metadata| <= l.maxMetadata
  }

  predicate IdsOk(s: State) {
    && UniqueIds(s.facts) && UniqueIds(s.hyps) && UniqueIds(s.rejected) && UniqueIds(s.artifacts) && UniqueIds(s.plan)
    && UniqueIds(s.pending) && UniqueIds(s.blockers) && UniqueIds(s.questions)
    && Ids(s.facts) !! Ids(s.hyps)
  }

  predicate StatementsOk(s: State, norm: string -> string) {
    forall f <- s.facts, h <- s.hyps :: norm(f.body.statement) != norm(h.body.statement)
  }

  datatype Application =
    | Applied(state: State, archived: seq<Archived>)
    | Refused(code: Code, index: Option<nat>)

  function Finish(s: State, a: seq<Archived>, version: nat, pol: Policy): Application {
    var (s1, a1) := Compact(s, pol.limits);
    if !WithinLimits(s1, pol.limits) then Refused(LimitExceeded, None)
    else if pol.schema.Some? && !pol.schema.value(s1.domain) then Refused(SchemaViolation, None)
    else
      var s2 := s1.(version := version + 1);
      if !(IdsOk(s2) && StatementsOk(s2, pol.norm)) then Refused(InvalidState, None)
      else if pol.size(s2) > pol.limits.maxBytes then Refused(TooLarge, None)
      else Applied(s2, a + a1)
  }

  function ApplyPatch(s: State, patch: Patch, archive: Option<set<string>>, pol: Policy, now: int): Application {
    if patch.expected != s.version then Refused(Stale, None)
    else if s.status in TERMINAL && patch.ops != [] then Refused(Terminal, None)
    else
      match CheckEvidence(patch.ops, archive)
      case Some((code, i)) => Refused(code, Some(i))
      case None =>
        match ApplyOps(s, patch.ops, pol.norm, now)
        case RejectedAt(code, i) => Refused(code, Some(i))
        case AllDone(s1, a1) => Finish(s1, a1, s.version, pol)
  }
}
