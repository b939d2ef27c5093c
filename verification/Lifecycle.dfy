/** The lifecycle as a transition system: every step is one transaction (or one read) of one process. */
module Lifecycle {
  import opened Domain
  import opened State
  import opened Tables
  import opened LoopGuard
  import Apply
  import Ledger

  datatype Config = Config(
    maxFailures: nat, maxTimeouts: nat, maxContinues: nat, maxRepeats: nat, window: nat, ledgerCap: nat,
        policy: Apply.Policy,
    initial: seq<Op>)

  datatype FailKind = ModelFail | TimeoutFail | PatchFail | LoopFail

  datatype ToolReturn = ToolReturn(exec: Option<nat>, ok: bool, facts: seq<Ledger.Report>, content: string)

  /** Where a process stands: the node it is in, and which of that node's transactions comes next. */
  datatype Pc =
    | LoadState(human: Option<string>) | LoadStep(human: Option<string>) | LogResume(human: Option<string>)
    | Dispatch(human: Option<string>) | Enter
    | BuildContext | Reason | ApplyDecision | Commit(target: State, archived: seq<Archived>)
    | RecordStale | ReloadStale | RecordRejection | RequestAction
    | RetrieveMemory | ExecuteAction | RunTool(exec: nat) | CaptureObservation | UpdateLedger(event: string)
    | Advance(kind: ObservationKind, content: string)
    | AwaitHuman | HandleFailure(fail: FailKind) | Finalize(status: Status) | LogEnd(status: Status) | Stopped

  /** One process: its program counter and its volatile controller state. */
  datatype Proc = Proc(
    pc: Pc, exec: State, step: nat, obs: Option<Observation>, decision: Option<Decision>, actionId: Option<nat>,
    tool: Option<ToolReturn>, row: Option<StepRow>,
    failures: nat, continues: nat, recent: seq<Signature>, trips: nat, timeouts: nat,
    steps: nat, maxSteps: nat, modelCalls: nat)

  /** Everything the outside world decides in one step: clock, model reply, tool result, texts, dictionary order, and
      whether a list that stands where a ledger should be makes the program fail or its patch be refused. */
  datatype Answer = Answer(
    now: int, decision: Option<Decision>, timeout: bool, toolOk: bool, facts: seq<Ledger.Report>, content: string,
    order: seq<string>, raises: bool)

  datatype Moved = Moved(tables: Tables, proc: Proc)

  /** An uncaught error: the open transaction rolls back and the process is gone. */
  function Crash(t: Tables, p: Proc): Moved {
    Moved(t, p.(pc := Stopped))
  }

  function Go(t: Tables, p: Proc, pc: Pc): Moved {
    Moved(t, p.(pc := pc))
  }

  function BeginStep(p: Proc, step: nat, obs: Observation): Proc {
    p.(step := step, obs := Some(obs), decision := None, actionId := None, tool := None, steps := p.steps + 1,
       modelCalls := 0,
       continues := if obs.kind.ContinueNote? then p.continues else 0)
  }

  function Count1(s: State, f: Counters -> Counters): State {
    s.(counters := f(s.counters))
  }

  // ---- BuildContext, Reason ----

  function BuildContextStep(t: Tables, p: Proc): Moved {
    if p.steps >= p.maxSteps then Go(t, p, Finalize(Paused))
    else if p.exec.counters.steps >= p.exec.maxSteps then Go(t, p, Finalize(Failed))
    else if p.obs.None? then Crash(t, p)
    else Go(MarkPhase(Log(t, p.step, ContextBuiltEvent), p.step, ContextBuilt), p, Reason)
  }

  function RecordReply(t: Tables, step: nat, reply: Option<Decision>): Tables {
    var t1 := Log(t, step, ModelRequest);
    match reply
    case Some(d) =>
      UpdateStep(Log(t1, step, ModelResponse), step, (r: StepRow) => r.(phase := DecisionRecorded, decision := Some(d)))
    case None => Log(t1, step, ModelError)
  }

  function ReasonStep(t: Tables, p: Proc, a: Answer): Moved {
    var t1 := RecordReply(t, p.step, a.decision);
    var p1 := p.(modelCalls := p.modelCalls + 1);
    if a.decision.Some? then Go(t1, p1.(decision := a.decision), ApplyDecision)
    else Go(t1, p1, HandleFailure(if a.timeout then TimeoutFail else ModelFail))
  }

  // ---- ApplyDecision ----

  function StatusAfter(s: Status, control: Control): Status {
    match control
    case Complete(Failure) => Failed
    case Complete(_) => Completed
    case Act(AskHuman(_)) => WaitingForHuman
    case _ => s
  }

  /** The state to commit: the patched one with the runtime's own fields brought up to date. */
  function Decided(s: State, p: Proc, control: Control): State {
    s.(counters := s.counters.(patchesApplied := s.counters.patchesApplied + 1,
                               modelCalls := s.counters.modelCalls + p.modelCalls,
                               consecutiveFailures := 0),
       status := StatusAfter(s.status, control))
  }

  function ApplyDecisionStep(c: Config, t: Tables, p: Proc, a: Answer): Moved {
    if p.decision.None? then Crash(t, p)
    else
      match Apply.ApplyPatch(p.exec, p.decision.value.patch, Some(EventIds(t.events)), c.policy, a.now)
      case Refused(_, _) => Go(t, p, RecordRejection)
      case Applied(s, archived) => Go(t, p, Commit(Decided(s, p, p.decision.value.control), archived))
  }

  /** The row of a step whose decision is committed under the given patch record. */
  function CommittedRow(row: StepRow, patchId: nat): StepRow {
    row.(phase := StateCommitted, patchId := Some(patchId))
  }

  function CommitStep(t: Tables, p: Proc): Moved
    requires p.pc.Commit?
  {
    if p.decision.None? then Crash(t, p)
    else
      var d := p.decision.value;
      var s := p.pc.target;
      var id := |t.patches|;
      match CommitState(RecordPatch(t, p.step, d.patch, Some(s.version)), s, p.exec.version, Some(id), p.step)
      case StaleWrite => Go(t, p, RecordStale)
      case KeyConflict => Crash(t, p)
      case Wrote(t1) =>
        var t2 := Log(Log(ArchiveItems(t1, p.step, p.pc.archived), p.step, PatchApplied), p.step, StateCommittedEvent);
        var t3 := UpdateStep(t2, p.step, (r: StepRow) => r.(phase := StateCommitted, patchId := Some(id)));
        Go(t3, p.(exec := s, failures := 0, timeouts := 0),
           match d.control
           case Complete(_) => Finalize(s.status)
           case Query(_) => RetrieveMemory
           case Act(_) => RequestAction)
  }

  function RecordStaleStep(t: Tables, p: Proc): Moved {
    if p.decision.None? then Crash(t, p)
    else Go(Log(RecordPatch(t, p.step, p.decision.value.patch, None), p.step, PatchRejected), p, ReloadStale)
  }

  function ReloadStaleStep(t: Tables, p: Proc): Moved {
    Go(t, p.(exec := t.current), Finalize(Paused))
  }

  function RecordRejectionStep(t: Tables, p: Proc): Moved {
    if p.decision.None? then Crash(t, p)
    else Go(Log(RecordPatch(t, p.step, p.decision.value.patch, None), p.step, PatchRejected), p,
            HandleFailure(PatchFail))
  }

  function SaveRequest(t: Tables, step: nat): Tables {
    UpdateStep(SaveAction(Log(t, step, ActionRequested), step), step,
               (r: StepRow) => r.(phase := ActionPending, actionId := Some(|t.actions|)))
  }

  function RequestActionStep(c: Config, t: Tables, p: Proc, a: Answer): Moved {
    if p.decision.None? || !p.decision.value.control.Act? || p.obs.None? then Crash(t, p)
    else
      var t1 := SaveRequest(t, p.step);
      var p1 := p.(actionId := Some(|t.actions|));
      match p.decision.value.control.action
      case AskHuman(_) => Go(t1, p1, AwaitHuman)
      case ToolCall(tool, arguments) =>
        var sig := Signature(tool, arguments, p.obs.value.content);
        var p2 := p1.(recent := Remembered(p.recent, sig, c.window, c.maxRepeats));
        if Trips(p.recent, sig, c.window, c.maxRepeats) then Go(t1, p2, HandleFailure(LoopFail))
            else Go(t1, p2, ExecuteAction)
      case Continue =>
        var n := if p.decision.value.patch.ops == [] then p.continues + 1 else 0;
        var p2 := p1.(continues := n);
        if n >= c.maxContinues then Go(t1, p2, HandleFailure(LoopFail))
            else Go(t1, p2, Advance(ContinueNote, a.content))
  }

  // ---- closing a step and opening the next ----

  /** The state with one more step completed, as its own version. */
  function NextState(s: State): State {
    s.(counters := s.counters.(steps := s.counters.steps + 1), version := s.version + 1)
  }

  /** `_next_step`: the counters commit and the next row; anything stale or conflicting rolls back to `t0`. */
  function NextStep(t0: Tables, t: Tables, p: Proc, obs: Observation): Moved {
    var es := NextState(p.exec);
    match CommitState(t, es, p.exec.version, None, p.step)
    case StaleWrite => Crash(t0, p)
    case KeyConflict => Crash(t0, p)
    case Wrote(t1) =>
      match CreateStep(t1, p.step + 1, obs.id)
      case Wrote(t2) => Go(t2, BeginStep(p.(exec := es), p.step + 1, obs), BuildContext)
      case _ => Crash(t0, p)
  }

  function AdvanceStep(t: Tables, p: Proc): Moved
    requires p.pc.Advance?
  {
    var obs := Observation(|t.observations|, p.pc.kind, p.pc.content);
    NextStep(t, MarkPhase(SaveObservation(Log(t, p.step + 1, ObservationEvent), obs.kind, obs.content), p.step,
                          Closed), p, obs)
  }

  function RetrieveMemoryStep(t: Tables, p: Proc): Moved {
    if p.obs.None? || p.decision.None? || !p.decision.value.control.Query? then Crash(t, p)
    else
      var p1 := p.(exec := Count1(p.exec, (k: Counters) => k.(retrievals := k.retrievals + 1)));
      NextStep(t, MarkPhase(Log(t, p.step, MemoryRetrieval), p.step, Closed), p1, p.obs.value)
  }

  // ---- tools ----

  predicate CallsTool(p: Proc) {
    p.decision.Some? && p.decision.value.control.Act? && p.decision.value.control.action.ToolCall?
  }

  function ExecuteActionStep(t: Tables, p: Proc): Moved {
    if !CallsTool(p) then Crash(t, p)
    else Go(MarkPhase(Log(StartExec(t, p.step), p.step, ToolStarted), p.step, ActionDispatched), p, RunTool(|t.execs|))
  }

  /** The tool itself runs here, outside any transaction. */
  function RunToolStep(t: Tables, p: Proc, a: Answer): Moved
    requires p.pc.RunTool?
  {
    Go(t, p.(tool := Some(ToolReturn(Some(p.pc.exec), a.toolOk, a.facts, a.content))), CaptureObservation)
  }

  /** The event an already closed execution (one that a resume marked interrupted) carries. */
  function ClosedEvent(t: Tables, exec: Option<nat>): Option<string> {
    if exec.Some? && exec.value < |t.execs|
        && !t.execs[exec.value].status.Started? then t.execs[exec.value].event else None
  }

  function CloseExec(t: Tables, step: nat, r: ToolReturn): Tables {
    var t1 := Log(t, step, if r.ok then ToolFinished else ToolFailed);
    if r.exec.Some? then FinishExec(t1, r.exec.value, if r.ok then Succeeded else ExecFailed, LastEvent(t1)) else t1
  }

  function CaptureObservationStep(t: Tables, p: Proc): Moved {
    if p.tool.None? || !CallsTool(p) then Crash(t, p)
    else
      var r := p.tool.value;
      var p1 := p.(exec := Count1(p.exec,
                                  (k: Counters) => k.(toolCalls := k.toolCalls + 1,
                                                      errors := if r.ok then k.errors else k.errors + 1)));
      match ClosedEvent(t, r.exec)
      case Some(ev) => Go(t, p1, UpdateLedger(ev))
      case None => Go(CloseExec(t, p.step, r), p1, UpdateLedger(LastEvent(CloseExec(t, p.step, r))))
  }

  /** `dict(domain.get(tool, {}) or {})` raises on a value that is neither empty nor an object nor a list of pairs. */
  predicate LedgerReadable(domain: Dict, tool: string) {
    tool in domain ==> domain[tool] in {Null, Bool(false), Num(0), Str(""), List([])} || domain[tool].Obj?
  }

  /** What counts as a key and a value: a list of two with a hashable head, a text of two characters, an object of
      two keys. */
  predicate PairLike(j: Json) {
    match j
    case List(items) => |items| == 2 && !items[0].List? && !items[0].Obj?
    case Str(s) => |s| == 2
    case Obj(fields) => |fields| == 2
    case _ => false
  }

  /** A list that `dict` takes for a dictionary. No path operation gets through it, so its update never commits. */
  predicate PairList(domain: Dict, tool: string) {
    tool in domain && domain[tool].List? && domain[tool].items != [] && forall x <- domain[tool].items :: PairLike(x)
  }

  /** A patch carries at most this many operations. */
  const MAX_PATCH_OPS := 50

  function LedgerPatch(c: Config, p: Proc, tool: string, facts: seq<Ledger.Report>, order: seq<string>): Patch
    requires p.pc.UpdateLedger? && forall k <- order :: k in Ledger.Entries(p.exec.domain, tool)
  {
    var slots := Ledger.SlotsOf(Ledger.Entries(p.exec.domain, tool), order);
    Patch(p.exec.version, Ledger.LedgerOps(tool, slots, facts, c.ledgerCap, p.pc.event, p.step))
  }

  function UpdateLedgerStep(c: Config, t: Tables, p: Proc, a: Answer): Moved
    requires p.pc.UpdateLedger? && Ordered(p, a)
  {
    if p.tool.None? || !CallsTool(p) then Crash(t, p)
    else
      var r := p.tool.value;
      var tool := p.decision.value.control.action.tool;
      var done := Advance(ToolOutput, r.content);
      if !r.ok || r.facts == [] then Go(t, p, done)
      else if PairList(p.exec.domain, tool) then (if a.raises then Crash(t, p) else Go(t, p, done))
      else if !LedgerReadable(p.exec.domain, tool) then Crash(t, p)
      else if Ledger.Raises(Ledger.Entries(p.exec.domain, tool), r.facts, c.ledgerCap) then Crash(t, p)
      else
        var patch := LedgerPatch(c, p, tool, r.facts, a.order);
        if |patch.ops| > MAX_PATCH_OPS then Crash(t, p)
        else
          match Apply.ApplyPatch(p.exec, patch, None, c.policy, a.now)
          case Refused(_, _) => Go(t, p, done)
          case Applied(s, _) =>
            match CommitState(RecordPatch(t, p.step, patch, Some(s.version)), s, p.exec.version, Some(|t.patches|),
                              p.step)
            case Wrote(t1) => Go(Log(t1, p.step, PatchApplied), p.(exec := s), done)
            case _ => Crash(t, p)
  }

  /** The answer lists the ledger dictionary in some order. */
  predicate Ordered(p: Proc, a: Answer) {
    p.pc.UpdateLedger? && CallsTool(p) ==>
      var entries := Ledger.Entries(p.exec.domain, p.decision.value.control.action.tool);
      Ledger.Enumerates(a.order, entries) && forall k <- a.order :: k in entries
  }

  // ---- waiting, failing, ending ----

  function AwaitHumanStep(t: Tables, p: Proc): Moved {
    Go(MarkPhase(Log(t, p.step, HumanRequest), p.step, AwaitingHuman), p, Finalize(WaitingForHuman))
  }

  /** The counters a failure moves; timeouts have a streak of their own. */
  function Failing(p: Proc, kind: FailKind): Proc {
    var k := p.exec.counters;
    p.(exec := p.exec.(counters := k.(errors := k.errors + 1,
                                      patchesRejected := if kind.PatchFail? then k.patchesRejected + 1
                                          else k.patchesRejected,
                                      consecutiveFailures := if kind.TimeoutFail? then k.consecutiveFailures
                                          else k.consecutiveFailures + 1)),
       timeouts := if kind.TimeoutFail? then p.timeouts + 1 else 0,
       failures := if kind.TimeoutFail? then p.failures else p.failures + 1,
       trips := if kind.LoopFail? then p.trips + 1 else p.trips)
  }

  function HandleFailureStep(c: Config, t: Tables, p: Proc, a: Answer): Moved
    requires p.pc.HandleFailure?
  {
    var p1 := Failing(p, p.pc.fail);
    var t1 := MarkPhase(Log(t, p.step, ErrorEvent), p.step, StepFailed);
    if p1.timeouts >= c.maxTimeouts then Go(t1, p1, Finalize(Paused))
    else if p1.failures >= c.maxFailures || p1.trips >= c.maxFailures then Go(t1, p1, Finalize(Failed))
    else Go(t1, p1, Advance(RuntimeFeedback, a.content))
  }

  function FinalizeStep(t: Tables, p: Proc): Moved
    requires p.pc.Finalize?
  {
    var status := p.pc.status;
    if p.exec.status == status then Go(t, p, LogEnd(status))
    else
      var es := p.exec.(status := status, version := p.exec.version + 1);
      match CommitState(t, es, p.exec.version, None, p.step)
      case Wrote(t1) => Go(t1, p.(exec := es), LogEnd(status))
      case StaleWrite => Go(t, p, LogEnd(status))
      case KeyConflict => Crash(t, p)
  }

  // ---- resume ----

  function LoadStateStep(t: Tables, p: Proc): Moved
    requires p.pc.LoadState?
  {
    if t.current.status in TERMINAL then Crash(t, p) else Go(t, p.(exec := t.current), LoadStep(p.pc.human))
  }

  function LoadStepStep(t: Tables, p: Proc): Moved
    requires p.pc.LoadStep?
  {
    match LatestStep(t)
    case None => Crash(t, p)
    case Some(n) => Go(t, p.(step := n, row := Some(t.steps[n])), LogResume(p.pc.human))
  }

  function Resumed(s: State): State {
    s.(status := Running, version := s.version + 1)
  }

  function DispatchStep(t: Tables, p: Proc): Moved
    requires p.pc.Dispatch?
  {
    if p.row.None? then Crash(t, p)
    else
      var es := Resumed(p.exec);
      if p.row.value.phase.AwaitingHuman? || p.exec.status.WaitingForHuman? then
        match p.pc.human
        case None => Go(t, p, Stopped)
        case Some(text) =>
          match CommitState(t, es, p.exec.version, None, p.step)
          case Wrote(t1) => Go(Log(t1, p.step, HumanResponse), p.(exec := es, decision := None),
                               Advance(HumanInput, text))
          case _ => Crash(t, p)
      else if !p.exec.status.Running? then
        match CommitState(t, es, p.exec.version, None, p.step)
        case Wrote(t1) => Go(t1, p.(exec := es), Enter)
        case _ => Crash(t, p)
      else Go(t, p, Enter)
  }

  /** The execution that the crash left open, if there is one, is closed as interrupted. */
  function Interrupt(t: Tables, step: nat): Tables {
    var t1 := Log(t, step, ToolInterrupted);
    match FindOpenExec(t.execs, step)
    case Some(id) => FinishExec(t1, id, Interrupted, LastEvent(t1))
    case None => t1
  }

  /** Re-entry by phase: `p` has begun the step anew. A row that is closed or waits for a human ends it. */
  function EnterAtStep(t: Tables, p: Proc, row: StepRow): Moved {
    var p2 := p.(decision := row.decision);
    match row.phase
    case ObservationReady | ContextBuilt | StepFailed => Go(t, p, BuildContext)
    case DecisionRecorded => if row.decision.None? then Crash(t, p) else Go(t, p2, ApplyDecision)
    case StateCommitted | ActionPending =>
      if row.decision.None? then Crash(t, p)
      else
        var p3 := p2.(actionId := row.actionId);
        (match row.decision.value.control
         case Query(_) => Go(t, p3, RetrieveMemory)
         case Act(ToolCall(_, _)) => if row.actionId.None? then Go(t, p3, ApplyDecision) else Go(t, p3, ExecuteAction)
         case _ => Go(t, p3, ApplyDecision))
    case ActionDispatched =>
      var p3 := p2.(actionId := row.actionId);
      if !CallsTool(p3) then Crash(t, p)
      else
        Go(Interrupt(t, p.step), p3.(tool := Some(ToolReturn(FindOpenExec(t.execs, p.step), false, [], ""))),
           CaptureObservation)
    case AwaitingHuman => Crash(t, p)
    case Closed => Crash(t, p)
  }

  function EnterStep(t: Tables, p: Proc): Moved {
    if p.row.None? || p.row.value.observation >= |t.observations| then Crash(t, p)
    else EnterAtStep(t, BeginStep(p, p.step, t.observations[p.row.value.observation]), p.row.value)
  }

  // ---- one step of one process ----

  function Micro(c: Config, t: Tables, p: Proc, a: Answer): Moved
    requires Ordered(p, a)
  {
    match p.pc
    case LoadState(_) => LoadStateStep(t, p)
    case LoadStep(_) => LoadStepStep(t, p)
    case LogResume(human) => Go(Log(t, p.step, RunResumed), p, Dispatch(human))
    case Dispatch(_) => DispatchStep(t, p)
    case Enter => EnterStep(t, p)
    case BuildContext => BuildContextStep(t, p)
    case Reason => ReasonStep(t, p, a)
    case ApplyDecision => ApplyDecisionStep(c, t, p, a)
    case Commit(_, _) => CommitStep(t, p)
    case RecordStale => RecordStaleStep(t, p)
    case ReloadStale => ReloadStaleStep(t, p)
    case RecordRejection => RecordRejectionStep(t, p)
    case RequestAction => RequestActionStep(c, t, p, a)
    case RetrieveMemory => RetrieveMemoryStep(t, p)
    case ExecuteAction => ExecuteActionStep(t, p)
    case RunTool(_) => RunToolStep(t, p, a)
    case CaptureObservation => CaptureObservationStep(t, p)
    case UpdateLedger(_) => UpdateLedgerStep(c, t, p, a)
    case Advance(_, _) => AdvanceStep(t, p)
    case AwaitHuman => AwaitHumanStep(t, p)
    case HandleFailure(_) => HandleFailureStep(c, t, p, a)
    case Finalize(_) => FinalizeStep(t, p)
    case LogEnd(_) => Go(Log(t, p.step, RunEnded), p, Stopped)
    case Stopped => Go(t, p, Stopped)
  }

  // ---- the system ----

  /** The database, the live processes, and the history of tool invocations by step. */
  datatype System = System(t: Tables, procs: map<nat, Proc>, invoked: seq<nat>)

  datatype Label =
    | Step(pid: nat, answer: Answer)
    | CrashOf(pid: nat)
    | Resume(pid: nat, human: Option<string>, limit: nat)

  const DEFAULT_LIMIT := 10_000

  function NewProc(pc: Pc, s: State, obs: Option<Observation>, limit: nat): Proc {
    Proc(pc, s, 0, obs, None, None, None, None, 0, 0, [], 0, 0, 0, if limit == 0 then DEFAULT_LIMIT else limit, 0)
  }

  /** Labels that cannot happen leave the system as it is. With `solo`, a run is resumed only when no process is
      alive. */
  function Do(c: Config, s: System, l: Label, solo: bool): System {
    match l
    case Step(pid, a) =>
      if pid !in s.procs || !Ordered(s.procs[pid], a) then s
      else
        var p := s.procs[pid];
        var r := Micro(c, s.t, p, a);
        System(r.tables, if r.proc.pc.Stopped? then s.procs - {pid} else s.procs[pid := r.proc],
               if p.pc.RunTool? then s.invoked + [p.step] else s.invoked)
    case CrashOf(pid) => s.(procs := s.procs - {pid})
    case Resume(pid, human, limit) =>
      if pid in s.procs || (solo && s.procs != map[]) then s
      else s.(procs := s.procs[pid := NewProc(LoadState(human), s.t.current, None, limit)])
  }

  function Run(c: Config, s: System, labels: seq<Label>, solo: bool): System {
    if labels == [] then s else Do(c, Run(c, s, labels[..|labels|-1], solo), labels[|labels|-1], solo)
  }

  // ---- creation ----

  const ZERO := Counters(0, 0, 0, 0, 0, 0, 0, 0)

  /** A state as `start` builds it: version 0, running, and with nothing in its record lists. */
  predicate Blank(s: State) {
    && s.version == 0 && s.status == Running && s.counters == ZERO
    && s.facts == [] && s.hyps == [] && s.rejected == [] && s.artifacts == [] && s.plan == []
    && s.pending == [] && s.blockers == [] && s.questions == []
  }

  function CreatedTables(s: State, input: string): Tables {
    var t := Tables(s, map[0 := VersionRow(0, None, s)], [], [], map[], [], [], []);
    SaveObservation(Log(Log(t, 0, RunCreated), 0, TaskInputEvent), TaskInput, input)
  }

  /** The tables after the initial patch, if there is one and it is accepted; nothing checks the domain schema here. */
  function Seeded(c: Config, s: State, t: Tables, now: int): Option<Tables> {
    if c.initial == [] then Some(t)
    else if |c.initial| > MAX_PATCH_OPS then None
    else
      match Apply.ApplyPatch(s, Patch(0, c.initial), None, c.policy.(schema := None), now)
      case Refused(_, _) => None
      case Applied(s1, _) =>
        match CommitState(RecordPatch(t, 0, Patch(0, c.initial), Some(s1.version)), s1, 0, Some(|t.patches|), 0)
        case Wrote(t1) => Some(Log(t1, 0, PatchApplied))
        case _ => None
  }

  /** `Runtime.start`: one transaction; a refused initial patch means that no run comes into being. */
  function Start(c: Config, s: State, input: string, now: int, limit: nat): Option<System> {
    var t := CreatedTables(s, input);
    match Seeded(c, s, t, now)
    case None => None
    case Some(t1) =>
      match CreateStep(t1, 0, 0)
      case Wrote(t2) =>
        Some(System(t2, map[0 := NewProc(BuildContext, t2.current, Some(t.observations[0]), limit)], []))
      case _ => None
  }
}
