/** The execution state, its status tables and the patch operations that may change it. */
module State {
  import opened Domain
  import opened Text

  datatype Status = Pending | Running | WaitingForHuman | Blocked | Paused | Completed | Failed | Cancelled

  const TERMINAL: set<Status> := {Completed, Failed, Cancelled}
  const MODEL_SETTABLE: set<Status> := {Running, Blocked}

  function Transitions(s: Status): set<Status> {
    match s
    case Pending => {Running, Cancelled, Failed}
    case Running => {WaitingForHuman, Blocked, Paused, Completed, Failed, Cancelled}
    case WaitingForHuman | Blocked | Paused => {Running, Cancelled, Failed}
    case Completed | Failed | Cancelled => {}
  }

  /** A record of one of the id-bearing lists. */
  datatype Keyed<T> = Keyed(id: string, body: T)

  datatype FactBody = FactBody(statement: string, confidence: real, evidence: seq<string>)
  datatype RuledOutBody = RuledOutBody(statement: string, reason: string, evidence: seq<string>, rejectedAt: int)
  datatype ArtifactBody = ArtifactBody(kind: string, locator: string, description: string, origin: Option<string>)
  datatype StepStatus = StepPending | InProgress | StepDone | Skipped
  datatype PlanBody = PlanBody(description: string, status: StepStatus)
  datatype PendingBody = PendingBody(description: string, tool: Option<string>)

  type Fact = Keyed<FactBody>
  type Hypothesis = Keyed<FactBody>
  type RuledOut = Keyed<RuledOutBody>
  type Artifact = Keyed<ArtifactBody>
  type PlanStep = Keyed<PlanBody>
  type PendingAction = Keyed<PendingBody>
  type Blocker = Keyed<string>
  type Question = Keyed<string>

  /** Runtime bookkeeping; `steps` is `steps_completed`. */
  datatype Counters = Counters(
    steps: nat, modelCalls: nat, toolCalls: nat, retrievals: nat,
    patchesApplied: nat, patchesRejected: nat, errors: nat, consecutiveFailures: nat)

  datatype State = State(
    version: nat,
    status: Status,
    counters: Counters,
    maxSteps: nat,
    statement: string,
    criteria: seq<string>,
    phase: string,
    facts: seq<Fact>,
    hyps: seq<Hypothesis>,
    rejected: seq<RuledOut>,
    artifacts: seq<Artifact>,
    plan: seq<PlanStep>,
    pending: seq<PendingAction>,
    blockers: seq<Blocker>,
    questions: seq<Question>,
    environment: Dict,
    entities: map<string, string>,
    constraints: seq<string>,
    domain: Dict,
    metadata: Dict,
    summary: Option<string>)

  /** The id of an added record is the one the model chose or, when it chose none, a generated one. */
  datatype Op =
    | SetPhase(phase: string)
    | SetStatus(status: Status)
    | SetObjective(newStatement: Option<string>, newCriteria: Option<seq<string>>)
    | AddFact(id: string, statement: string, confidence: real, evidence: seq<string>)
    | SupersedeFact(id: string, statement: string, confidence: real, evidence: seq<string>)
    | RemoveFact(id: string, reason: string)
    | ArchiveFacts(ids: seq<string>, reason: string)
    | AddHypothesis(id: string, statement: string, confidence: real, evidence: seq<string>)
    | UpdateHypothesis(id: string, newStatement: Option<string>, newConfidence: Option<real>,
                       newEvidence: Option<seq<string>>)
    | RejectHypothesis(id: string, reason: string, evidence: seq<string>)
    | PromoteHypothesis(id: string, evidence: seq<string>, confidence: real)
    | AddArtifact(id: string, artifact: ArtifactBody)
    | RemoveArtifact(id: string, reason: string)
    | SetPlan(steps: seq<string>)
    | UpdatePlanStep(id: string, stepStatus: StepStatus, newDescription: Option<string>)
    | AddPendingAction(id: string, action: PendingBody)
    | CompletePendingAction(id: string)
    | AddBlocker(id: string, description: string)
    | RemoveBlocker(id: string, reason: string)
    | AddQuestion(id: string, question: string)
    | ResolveQuestion(id: string, answer: string)
    | SetEnvironment(key: string, value: Json)
    | ClearEnvironment(key: string)
    | SetEntity(name: string, description: string)
    | RemoveEntity(name: string)
    | AddConstraint(constraint: string)
    | RemoveConstraint(constraint: string)
    | SetObservationSummary(text: string)
    | SetMetadata(key: string, value: Json)
    | SetPath(path: Path, value: Json)
    | AdjustPath(path: Path, delta: int, dropAtZero: bool)
    | DeletePath(path: Path)

  datatype Patch = Patch(expected: nat, ops: seq<Op>)

  /** Something that left the working state and must survive in the archive. */
  datatype Item =
    | FactItem(fact: Fact)
    | RejectedItem(rejected: RuledOut)
    | ArtifactItem(artifact: Artifact)
    | PlanItem(steps: seq<PlanStep>)
    | PlanStepItem(step: PlanStep)
    | PendingItem(action: PendingAction)
    | BlockerItem(blocker: Blocker)
    | QuestionItem(question: Question, answer: string)
    | EnvironmentItem(key: string, value: Json)
    | EntityItem(name: string, description: string)
    | ConstraintItem(constraint: string)
    | DomainItem(path: Path, value: Json)

  datatype Archived = Archived(item: Item, reason: string, automatic: bool)

  // ---- id-bearing lists ----

  function Ids<T(==)>(xs: seq<Keyed<T>>): set<string> {
    set x | x in xs :: x.id
  }

  predicate UniqueIds<T>(xs: seq<Keyed<T>>) {
    forall i, j :: 0 <= i < j < |xs| ==> xs[i].id != xs[j].id
  }

  /** The first record with the given id. */
  function Find<T(==)>(xs: seq<Keyed<T>>, id: string): (r: Option<Keyed<T>>)
    ensures r.Some? ==> r.value in xs && r.value.id == id
    ensures r.Some? <==> id in Ids(xs)
  {
    if xs == [] then None
    else if xs[0].id == id then Some(xs[0])
    else Find(xs[1..], id)
  }

  /** `list.remove(x)`: drops the first record equal to `x`. */
  function Remove<T(==)>(xs: seq<T>, x: T): seq<T> {
    if xs == [] then [] else if xs[0] == x then xs[1..] else [xs[0]] + Remove(xs[1..], x)
  }

  /** Overwrites the body of the first record with the given id, in its place. */
  function Replace<T>(xs: seq<Keyed<T>>, id: string, body: T): (r: seq<Keyed<T>>)
    ensures |r| == |xs|
  {
    if xs == [] then [] else if xs[0].id == id then [Keyed(id, body)] + xs[1..]
        else [xs[0]] + Replace(xs[1..], id, body)
  }

  function PlanId(i: nat): string {
    "plan_" + Dec(i + 1)
  }

  function TakenIds(s: State): set<string> {
    Ids(s.facts) + Ids(s.hyps) + Ids(s.rejected) + Ids(s.artifacts) + Ids(s.plan) + Ids(s.pending) + Ids(s.blockers)
        + Ids(s.questions)
  }
}
