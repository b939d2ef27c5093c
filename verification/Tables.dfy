/** The durable tables of one run and the row operations of the store, as functions on table values. */
module Tables {
  import opened Domain
  import opened State
  import opened Text

  datatype Phase =
    | ObservationReady | ContextBuilt | DecisionRecorded | StateCommitted | ActionPending
    | ActionDispatched | AwaitingHuman | StepFailed | Closed

  datatype Action = ToolCall(tool: string, arguments: string) | AskHuman(question: string) | Continue
  datatype Outcome = Success | Failure | Partial

  /** Exactly one of an action, a memory query and a completion. */
  datatype Control = Act(action: Action) | Query(query: string) | Complete(outcome: Outcome)
  datatype Decision = Decision(patch: Patch, control: Control)

  datatype ObservationKind = TaskInput | ToolOutput | HumanInput | RuntimeFeedback | ContinueNote
  datatype Observation = Observation(id: nat, kind: ObservationKind, content: string)

  datatype StepRow = StepRow(phase: Phase, observation: nat, decision: Option<Decision>, patchId: Option<nat>,
                             actionId: Option<nat>)

  /** `patchId` is the record of the patch this version comes from; runtime bookkeeping carries none. */
  datatype VersionRow = VersionRow(step: nat, patchId: Option<nat>, state: State)

  /** A proposed patch; `resulting` is the version it led to, none if it was rejected. */
  datatype PatchRow = PatchRow(step: nat, patch: Patch, resulting: Option<nat>)

  datatype EventKind =
    | RunCreated | TaskInputEvent | ContextBuiltEvent | ModelRequest | ModelResponse | ModelError
    | PatchApplied | PatchRejected | StateCompaction | StateCommittedEvent | ActionRequested
    | MemoryRetrieval | ToolStarted | ToolFinished | ToolFailed | ToolInterrupted | ObservationEvent
    | HumanRequest | HumanResponse | ErrorEvent | RunEnded | RunResumed

  /** An archive event; `item` is what left the working state, for the events that preserve such an item. */
  datatype Event = Event(seqno: nat, id: string, step: nat, kind: EventKind, item: Option<Archived>)

  datatype ExecStatus = Started | Succeeded | ExecFailed | Interrupted
  datatype ExecRow = ExecRow(step: nat, status: ExecStatus, event: Option<string>)

  datatype Tables = Tables(
    current: State,
    versions: map<nat, VersionRow>,
    patches: seq<PatchRow>,
    events: seq<Event>,
    steps: map<nat, StepRow>,
    execs: seq<ExecRow>,
    observations: seq<Observation>,
    actions: seq<nat>)

  // ---- archive events ----

  function EventName(n: nat): string {
    "evt_" + Dec(n)
  }

  /** `COALESCE(MAX(seq), -1) + 1`. */
  function NextSeq(events: seq<Event>): nat {
    if events == [] then 0
    else
      var rest := NextSeq(events[..|events|-1]);
      if events[|events|-1].seqno + 1 > rest then events[|events|-1].seqno + 1 else rest
  }

  function WithEvent(events: seq<Event>, step: nat, kind: EventKind, item: Option<Archived>): seq<Event> {
    var n := NextSeq(events);
    events + [Event(n, EventName(n), step, kind, item)]
  }

  function Append(t: Tables, step: nat, kind: EventKind, item: Option<Archived>): Tables {
    t.(events := WithEvent(t.events, step, kind, item))
  }

  function Log(t: Tables, step: nat, kind: EventKind): Tables {
    Append(t, step, kind, None)
  }

  /** The id of the newest event. */
  function LastEvent(t: Tables): string {
    if t.events == [] then "" else t.events[|t.events|-1].id
  }

  function WithItems(events: seq<Event>, step: nat, items: seq<Archived>): seq<Event> {
    if items == [] then events
    else
      var last := items[|items|-1];
      WithEvent(WithItems(events, step, items[..|items|-1]), step,
                if last.automatic then StateCompaction else PatchApplied, Some(last))
  }

  function ArchiveItems(t: Tables, step: nat, items: seq<Archived>): Tables {
    t.(events := WithItems(t.events, step, items))
  }

  function EventIds(events: seq<Event>): set<string> {
    set e <- events :: e.id
  }

  /** Everything the archive preserves of what left the working state. */
  function Preserves(events: seq<Event>): seq<Archived> {
    if events == [] then []
    else
      var last := events[|events|-1];
      Preserves(events[..|events|-1]) + if last.item.Some? then [last.item.value] else []
  }

  // ---- states and patches ----

  datatype Written = Wrote(tables: Tables) | StaleWrite | KeyConflict

  /** Compare-and-set on the version, plus the insert into the version history under a primary key. */
  function CommitState(t: Tables, s: State, expected: nat, patchId: Option<nat>, step: nat): Written {
    if s.version != expected + 1 then KeyConflict
    else if t.current.version != expected then StaleWrite
    else if s.version in t.versions then KeyConflict
    else Wrote(t.(current := s, versions := t.versions[s.version := VersionRow(step, patchId, s)]))
  }

  function RecordPatch(t: Tables, step: nat, patch: Patch, resulting: Option<nat>): Tables {
    t.(patches := t.patches + [PatchRow(step, patch, resulting)])
  }

  // ---- steps ----

  function CreateStep(t: Tables, step: nat, observation: nat): Written {
    if step in t.steps then KeyConflict
    else Wrote(t.(steps := t.steps[step := StepRow(ObservationReady, observation, None, None, None)]))
  }

  function UpdateStep(t: Tables, step: nat, row: StepRow -> StepRow): Tables {
    if step in t.steps then t.(steps := t.steps[step := row(t.steps[step])]) else t
  }

  /** `update_step`: the phase always, the rest when given. */
  function RowUpdate(phase: Phase, decision: Option<Decision>, patchId: Option<nat>,
                     actionId: Option<nat>): StepRow -> StepRow {
    (r: StepRow) => StepRow(phase, r.observation, if decision.Some? then decision else r.decision,
                            if patchId.Some? then patchId else r.patchId,
                                if actionId.Some? then actionId else r.actionId)
  }

  function MarkPhase(t: Tables, step: nat, phase: Phase): Tables {
    UpdateStep(t, step, (r: StepRow) => r.(phase := phase))
  }

  predicate IsGreatest(n: nat, s: set<nat>) {
    n in s && forall k <- s :: k <= n
  }

  lemma {:induction false} HasGreatest(s: set<nat>)
    requires s != {}
    ensures exists n :: IsGreatest(n, s)
    decreases |s|
  {
    hide IsGreatest;
    var z :| z in s;
    var rest := s - {z};
    assert s == rest + {z};
    if rest == {} {
      assert s == {z};
      GreatestOfOne(z);
    } else {
      HasGreatest(rest);
      var m :| IsGreatest(m, rest);
      GreatestOfMore(m, rest, z);
    }
  }

  lemma GreatestOfOne(z: nat)
    ensures IsGreatest(z, {z})
  {}

  lemma GreatestOfMore(m: nat, rest: set<nat>, z: nat)
    requires IsGreatest(m, rest)
    ensures IsGreatest(if m < z then z else m, rest + {z})
  {}

  /** `ORDER BY step DESC LIMIT 1`. */
  function LatestStep(t: Tables): (r: Option<nat>)
    ensures r.None? <==> t.steps == map[]
    ensures r.Some? ==> r.value in t.steps && forall k <- t.steps :: k <= r.value
  {
    if t.steps == map[] then None
    else
      assert t.steps.Keys != {};
      HasGreatest(t.steps.Keys);
      var n :| IsGreatest(n, t.steps.Keys);
      Some(n)
  }

  // ---- observations, actions, tool executions ----

  function SaveObservation(t: Tables, kind: ObservationKind, content: string): Tables {
    t.(observations := t.observations + [Observation(|t.observations|, kind, content)])
  }

  function SaveAction(t: Tables, step: nat): Tables {
    t.(actions := t.actions + [step])
  }

  function StartExec(t: Tables, step: nat): Tables {
    t.(execs := t.execs + [ExecRow(step, Started, None)])
  }

  function FinishExec(t: Tables, id: nat, status: ExecStatus, event: string): Tables {
    if id < |t.execs| then t.(execs := t.execs[id := t.execs[id].(status := status, event := Some(event))]) else t
  }

  /** The newest execution of the step that is still open. */
  function FindOpenExec(execs: seq<ExecRow>, step: nat): (r: Option<nat>)
    ensures r.Some? ==> r.value < |execs| && execs[r.value].step == step && execs[r.value].status.Started?
    ensures r.None? ==> forall e <- execs :: !(e.step == step && e.status.Started?)
  {
    if execs == [] then None
    else
      var last := execs[|execs|-1];
      assert execs == execs[..|execs|-1] + [last];
      if last.step == step && last.status.Started? then Some(|execs| - 1) else FindOpenExec(execs[..|execs|-1], step)
  }
}
