/** The nodes and the re-entry of `resume` as the program performs them: fields overwritten one by one, statements
    inside transactions. Each does exactly one step of the transition system. */
module Nodes {
  import opened Domain
  import opened State
  import opened Tables
  import opened Storage
  import opened Lifecycle
  import opened LoopGuard
  import Apply
  import Draft
  import Ledger

  /** What a step was to do; nothing is asked of the memory of a process that is gone. */
  predicate Did(m: Moved, t: Tables, p: Proc) {
    t == m.tables && (p == m.proc || (p.pc.Stopped? && m.proc.pc.Stopped?))
  }

  /** The process after its action has been routed, the loop guards permitting. */
  function Routed(c: Config, p: Proc, action: Action, observed: string, empty: bool, note: string): Proc {
    match action
    case AskHuman(_) => p.(pc := AwaitHuman)
    case ToolCall(tool, arguments) =>
      var sig := Signature(tool, arguments, observed);
      p.(recent := Remembered(p.recent, sig, c.window, c.maxRepeats),
         pc := if Trips(p.recent, sig, c.window, c.maxRepeats) then HandleFailure(LoopFail) else ExecuteAction)
    case Continue =>
      var n := if empty then p.continues + 1 else 0;
      p.(continues := n, pc := if n >= c.maxContinues then HandleFailure(LoopFail) else Advance(ContinueNote, note))
  }

  lemma RequestRouted(c: Config, t: Tables, p: Proc, a: Answer)
    ensures RequestActionStep(c, t, p, a)
         == if p.decision.None? || !p.decision.value.control.Act? || p.obs.None? then Crash(t, p)
            else
              var d, p1 := p.decision.value, p.(actionId := Some(|t.actions|));
              Moved(SaveRequest(t, p.step),
                    Routed(c, p1, d.control.action, p.obs.value.content, d.patch.ops == [], a.content))
  {
    hide SaveRequest, Trips, Remembered;
  }

  /** The process after a tool call is counted. */
  function Called(p: Proc, ok: bool): Proc {
    p.(exec := Count1(p.exec, (k: Counters) => k.(toolCalls := k.toolCalls + 1,
                                                  errors := if ok then k.errors else k.errors + 1)))
  }

  lemma CaptureCalls(t: Tables, p: Proc)
    ensures CaptureObservationStep(t, p)
         == if p.tool.None? || !CallsTool(p) then Crash(t, p)
            else
              match ClosedEvent(t, p.tool.value.exec)
              case Some(e) => Go(t, Called(p, p.tool.value.ok), UpdateLedger(e))
              case None =>
                var u := CloseExec(t, p.step, p.tool.value);
                Go(u, Called(p, p.tool.value.ok), UpdateLedger(LastEvent(u)))
  {
    hide ClosedEvent, CloseExec, LastEvent, CallsTool;
  }

  /** The process after its decision is committed. */
  function GoesOn(p: Proc, s: State, control: Control): Proc {
    p.(exec := s, failures := 0, timeouts := 0,
       pc := match control
             case Complete(_) => Finalize(s.status)
             case Query(_) => RetrieveMemory
             case Act(_) => RequestAction)
  }

  lemma CommitGoesOn(t: Tables, p: Proc)
    requires p.pc.Commit?
    ensures p.decision.None? ==> CommitStep(t, p) == Crash(t, p)
    ensures p.decision.Some? ==>
      var s, patch := p.pc.target, p.decision.value.patch;
      match CommitState(RecordPatch(t, p.step, patch, Some(s.version)), s, p.exec.version, Some(|t.patches|), p.step)
      case StaleWrite => CommitStep(t, p) == Go(t, p, RecordStale)
      case KeyConflict => CommitStep(t, p) == Crash(t, p)
      case Wrote(_) =>
        && CommitsTo(t, s, p.pc.archived, patch, p.exec.version, p.step, CommitStep(t, p).tables)
        && CommitStep(t, p).proc == GoesOn(p, s, p.decision.value.control)
  {
    hide CommitState, ArchiveItems, RecordPatch, Log;
  }

  class Runner {
    const config: Config
    const store: Store
    const maxSteps: nat

    var pc: Pc
    var executionState: State
    var step: nat
    var observation: Option<Observation>
    var decision: Option<Decision>
    var actionId: Option<nat>
    var toolResult: Option<ToolReturn>
    var stepRow: Option<StepRow>
    var consecutiveFailures: nat
    var consecutiveContinues: nat
    var recentSignatures: seq<Signature>
    var loopTrips: nat
    var consecutiveTimeouts: nat
    var stepsThisInvocation: nat
    var modelCallsThisStep: nat

    constructor (config: Config, store: Store, pc: Pc, s: State, obs: Option<Observation>, limit: nat)
      ensures this.config == config && this.store == store
      ensures Snapshot() == NewProc(pc, s, obs, limit)
    {
      this.config, this.store := config, store;
      this.pc, executionState, step, observation := pc, s, 0, obs;
      decision, actionId, toolResult, stepRow := None, None, None, None;
      consecutiveFailures, consecutiveContinues, recentSignatures, loopTrips, consecutiveTimeouts := 0, 0, [], 0, 0;
      stepsThisInvocation, modelCallsThisStep := 0, 0;
      maxSteps := if limit == 0 then DEFAULT_LIMIT else limit;
    }

    function Snapshot(): Proc
      reads this
    {
      Proc(pc, executionState, step, observation, decision, actionId, toolResult, stepRow, consecutiveFailures,
           consecutiveContinues,
           recentSignatures, loopTrips, consecutiveTimeouts, stepsThisInvocation, maxSteps, modelCallsThisStep)
    }

    /** Between two transactions. */
    ghost predicate Ready()
      reads this, store.db
    {
      store.db.depth == 0 && store.db.Valid()
    }

    method Begin(newStep: nat, obs: Observation)
      modifies `step, `observation, `decision, `actionId, `toolResult, `stepsThisInvocation, `modelCallsThisStep,
          `consecutiveContinues
      ensures Snapshot() == BeginStep(old(Snapshot()), newStep, obs)
    {
      step := newStep;
      observation := Some(obs);
      decision, actionId, toolResult := None, None, None;
      stepsThisInvocation := stepsThisInvocation + 1;
      modelCallsThisStep := 0;
      if !obs.kind.ContinueNote? {
        consecutiveContinues := 0;
      }
    }

    /** One transaction of a single event and a new phase for the row. */
    method LogAndMark(kind: EventKind, phase: Phase)
      requires Ready()
      modifies store.db
      ensures Ready() && store.db.durable == MarkPhase(Log(old(store.db.durable), step, kind), step, phase)
    {
      store.db.Enter();
      var _ := store.AppendEvent(step, kind, None);
      store.SetStep(step, phase, None, None, None);
      store.db.Leave(true);
    }

    method LogOnly(kind: EventKind)
      requires Ready()
      modifies store.db
      ensures Ready() && store.db.durable == Log(old(store.db.durable), step, kind)
    {
      var _ := store.AppendEvent(step, kind, None);
    }

    // ---- building the context, asking the model ----

    method BuildContextNode()
      requires Ready() && pc.BuildContext?
      modifies this, store.db
      ensures Ready()
      ensures Did(old(BuildContextStep(store.db.durable, Snapshot())), store.db.durable, Snapshot())
    {
      if stepsThisInvocation >= maxSteps {
        pc := Finalize(Paused);
      } else if executionState.counters.steps >= executionState.maxSteps {
        pc := Finalize(Status.Failed);
      } else if observation.None? {
        pc := Stopped;
      } else {
        LogAndMark(ContextBuiltEvent, ContextBuilt);
        pc := Reason;
      }
    }

    method KeepReply(reply: Option<Decision>)
      requires Ready()
      modifies store.db
      ensures Ready() && store.db.durable == RecordReply(old(store.db.durable), step, reply)
    {
      store.db.Enter();
      var _ := store.AppendEvent(step, ModelRequest, None);
      if reply.Some? {
        var _ := store.AppendEvent(step, ModelResponse, None);
        store.SetStep(step, DecisionRecorded, reply, None, None);
      } else {
        var _ := store.AppendEvent(step, ModelError, None);
      }
      store.db.Leave(true);
    }

    method ReasonNode(a: Answer)
      requires Ready() && pc.Reason?
      modifies this, store.db
      ensures Ready()
      ensures Did(old(ReasonStep(store.db.durable, Snapshot(), a)), store.db.durable, Snapshot())
    {
      hide RecordReply;
      modelCallsThisStep := modelCallsThisStep + 1;
      KeepReply(a.decision);
      if a.decision.Some? {
        decision := a.decision;
        pc := ApplyDecision;
      } else {
        pc := HandleFailure(if a.timeout then TimeoutFail else ModelFail);
      }
    }

    // ---- applying the decision ----

    method ApplyDecisionNode(a: Answer)
      requires Ready() && pc.ApplyDecision?
      modifies this
      ensures Ready()
      ensures Did(old(ApplyDecisionStep(config, store.db.durable, Snapshot(), a)), store.db.durable, Snapshot())
    {
      hide Apply.ApplyPatch;
      if decision.None? {
        pc := Stopped;
        return;
      }
      var known := EventIds(store.db.working.events);
      var applied := Draft.ApplyPatch(executionState, decision.value.patch, Some(known), config.policy, a.now);
      if applied.Refused? {
        pc := RecordRejection;
        return;
      }
      var s := applied.state;
      var k := s.counters;
      s := s.(counters := k.(patchesApplied := k.patchesApplied + 1, modelCalls := k.modelCalls + modelCallsThisStep,
                             consecutiveFailures := 0));
      match decision.value.control {
        case Complete(outcome) => s :=
            s.(status := if outcome.Success? || outcome.Partial? then Completed else Status.Failed);
        case Act(action) => if action.AskHuman? { s := s.(status := WaitingForHuman); }
        case Query(_) =>
      }
      pc := Commit(s, applied.archived);
    }

    /** The commit transaction: patch record, compare-and-set, archive events, step row; an exception rolls all of it
        back. */
    method CommitDecision(s: State, archived: seq<Archived>, patch: Patch) returns (r: CommitResult)
      requires Ready()
      modifies store.db
      ensures Ready()
      ensures r.Committed? ==> CommitsTo(old(store.db.durable), s, archived, patch, executionState.version, step,
                                         store.db.durable)
      ensures !r.Committed? ==> store.db.durable == old(store.db.durable)
      ensures var t := old(store.db.durable);
        var w := CommitState(RecordPatch(t, step, patch, Some(s.version)), s, executionState.version,
                             Some(|t.patches|), step);
        (r.Lost? ==> w.StaleWrite?) && (r.Broken? ==> w.KeyConflict?)
    {
      hide CommitState, ArchiveItems;
      store.db.Enter();
      var id := store.SavePatch(step, patch, Some(s.version));
      r := store.Commit(s, executionState.version, Some(id), step);
      if !r.Committed? {
        store.db.Leave(false);
        return;
      }
      store.AppendItems(step, archived);
      var _ := store.AppendEvent(step, PatchApplied, None);
      var _ := store.AppendEvent(step, StateCommittedEvent, None);
      store.SetStep(step, StateCommitted, None, Some(id), None);
      store.db.Leave(true);
    }

    method CommitNode()
      requires Ready() && pc.Commit?
      modifies this, store.db
      ensures Ready()
      ensures Did(old(CommitStep(store.db.durable, Snapshot())), store.db.durable, Snapshot())
    {
      hide CommitState, ArchiveItems, UpdateStep, RecordPatch, Log, GoesOn, CommitStep;
      CommitGoesOn(store.db.durable, Snapshot());
      if decision.None? {
        pc := Stopped;
        return;
      }
      var s := pc.target;
      var r := CommitDecision(s, pc.archived, decision.value.patch);
      match r {
        case Lost => pc := RecordStale;
        case Broken => pc := Stopped;
        case Committed => GoOn(s, decision.value.control);
      }
    }

    /** The committed state becomes the working one, and the control decides where it goes. */
    method GoOn(s: State, control: Control)
      modifies `pc, `executionState, `consecutiveFailures, `consecutiveTimeouts
      ensures Snapshot() == GoesOn(old(Snapshot()), s, control)
    {
      executionState := s;
      consecutiveFailures, consecutiveTimeouts := 0, 0;
      match control {
        case Complete(_) => pc := Finalize(s.status);
        case Query(_) => pc := RetrieveMemory;
        case Act(_) => pc := RequestAction;
      }
    }

    method RejectPatch()
      requires Ready() && decision.Some?
      modifies store.db
      ensures Ready()
      ensures store.db.durable
        == Log(RecordPatch(old(store.db.durable), step, decision.value.patch, None), step, PatchRejected)
    {
      store.db.Enter();
      var _ := store.SavePatch(step, decision.value.patch, None);
      var _ := store.AppendEvent(step, PatchRejected, None);
      store.db.Leave(true);
    }

    method RecordStaleNode()
      requires Ready() && pc.RecordStale?
      modifies this, store.db
      ensures Ready()
      ensures Did(old(RecordStaleStep(store.db.durable, Snapshot())), store.db.durable, Snapshot())
    {
      hide Log, RecordPatch;
      if decision.None? {
        pc := Stopped;
      } else {
        RejectPatch();
        pc := ReloadStale;
      }
    }

    method ReloadStaleNode()
      requires Ready() && pc.ReloadStale?
      modifies this
      ensures Ready()
      ensures Did(old(ReloadStaleStep(store.db.durable, Snapshot())), store.db.durable, Snapshot())
    {
      executionState := store.db.working.current;
      pc := Finalize(Paused);
    }

    method RecordRejectionNode()
      requires Ready() && pc.RecordRejection?
      modifies this, store.db
      ensures Ready()
      ensures Did(old(RecordRejectionStep(store.db.durable, Snapshot())), store.db.durable, Snapshot())
    {
      hide Log, RecordPatch;
      if decision.None? {
        pc := Stopped;
      } else {
        RejectPatch();
        pc := HandleFailure(PatchFail);
      }
    }

    method KeepRequest() returns (id: nat)
      requires Ready()
      modifies store.db
      ensures Ready() && store.db.durable == SaveRequest(old(store.db.durable), step)
      ensures id == |old(store.db.durable).actions|
    {
      store.db.Enter();
      var _ := store.AppendEvent(step, ActionRequested, None);
      id := store.KeepAction(step);
      store.SetStep(step, ActionPending, None, None, Some(id));
      store.db.Leave(true);
    }

    /** The repeated-action guard: true if it trips, and then it forgets everything. */
    method Guard(sig: Signature) returns (trips: bool)
      modifies this`recentSignatures
      ensures trips == Trips(old(recentSignatures), sig, config.window, config.maxRepeats)
      ensures recentSignatures == Remembered(old(recentSignatures), sig, config.window, config.maxRepeats)
    {
      recentSignatures := Window(recentSignatures, sig, config.window);
      trips := Count(recentSignatures, sig) >= config.maxRepeats;
      if trips {
        recentSignatures := [];
      }
    }

    /** Where the requested action leads, the loop guards permitting. */
    method Route(action: Action, observed: string, empty: bool, note: string)
      modifies `pc, `recentSignatures, `consecutiveContinues
      ensures Snapshot() == Routed(config, old(Snapshot()), action, observed, empty, note)
    {
      hide Trips, Remembered;
      match action {
        case AskHuman(_) => pc := AwaitHuman;
        case ToolCall(tool, arguments) =>
          var trips := Guard(Signature(tool, arguments, observed));
          pc := if trips then HandleFailure(LoopFail) else ExecuteAction;
        case Continue =>
          consecutiveContinues := if empty then consecutiveContinues + 1 else 0;
          pc := if consecutiveContinues >= config.maxContinues then HandleFailure(LoopFail)
              else Advance(ContinueNote, note);
      }
    }

    method RequestActionNode(a: Answer)
      requires Ready() && pc.RequestAction?
      modifies this, store.db
      ensures Ready()
      ensures Did(old(RequestActionStep(config, store.db.durable, Snapshot(), a)), store.db.durable, Snapshot())
    {
      hide SaveRequest, RequestActionStep, Routed;
      RequestRouted(config, store.db.durable, Snapshot(), a);
      if decision.None? || !decision.value.control.Act? || observation.None? {
        pc := Stopped;
      } else {
        var id := KeepRequest();
        actionId := Some(id);
        Route(decision.value.control.action, observation.value.content, decision.value.patch.ops == [], a.content);
      }
    }

    // ---- closing a step and opening the next ----

    /** The inner transaction of the counters commit and the next row; on an exception the caller's rolls back. */
    method OpenNext(obs: Observation) returns (ok: bool)
      requires store.db.Valid() && store.db.depth == 1
      modifies store.db
      ensures store.db.Valid() && store.db.depth == 1 && store.db.durable == old(store.db.durable)
      ensures var w := CommitState(old(store.db.working), NextState(executionState), executionState.version, None,
                                   step);
        && (ok ==> w.Wrote? && CreateStep(w.tables, step + 1, obs.id) == Wrote(store.db.working))
        && (!ok ==> !w.Wrote? || !CreateStep(w.tables, step + 1, obs.id).Wrote?)
    {
      hide CommitState, CreateStep;
      store.db.Enter();
      var r := store.Commit(NextState(executionState), executionState.version, None, step);
      if !r.Committed? {
        store.db.Leave(false);
        return false;
      }
      ok := store.OpenStep(step + 1, obs.id);
      store.db.Leave(ok);
    }

    /** The end of a closing transaction that is open on tables `t`. */
    method CloseWith(obs: Observation)
      requires store.db.Valid() && store.db.depth == 1
      modifies this, store.db
      ensures Ready()
      ensures Did(old(NextStep(store.db.durable, store.db.working, Snapshot(), obs)), store.db.durable, Snapshot())
    {
      hide CommitState, CreateStep, BeginStep;
      var ok := OpenNext(obs);
      store.db.Leave(ok);
      if ok {
        executionState := NextState(executionState);
        Begin(step + 1, obs);
        pc := BuildContext;
      } else {
        pc := Stopped;
      }
    }

    method AdvanceNode()
      requires Ready() && pc.Advance?
      modifies this, store.db
      ensures Ready()
      ensures Did(old(AdvanceStep(store.db.durable, Snapshot())), store.db.durable, Snapshot())
    {
      hide NextStep;
      var obs := Observation(|store.db.working.observations|, pc.kind, pc.content);
      store.db.Enter();
      var _ := store.AppendEvent(step + 1, ObservationEvent, None);
      store.KeepObservation(obs.kind, obs.content);
      store.SetStep(step, Closed, None, None, None);
      CloseWith(obs);
    }

    method RetrieveMemoryNode()
      requires Ready() && pc.RetrieveMemory?
      modifies this, store.db
      ensures Ready()
      ensures Did(old(RetrieveMemoryStep(store.db.durable, Snapshot())), store.db.durable, Snapshot())
    {
      hide NextStep;
      if observation.None? || decision.None? || !decision.value.control.Query? {
        pc := Stopped;
        return;
      }
      store.db.Enter();
      var _ := store.AppendEvent(step, MemoryRetrieval, None);
      store.SetStep(step, Closed, None, None, None);
      var k := executionState.counters;
      executionState := executionState.(counters := k.(retrievals := k.retrievals + 1));
      CloseWith(observation.value);
    }

    // ---- tools ----

    method Dispatched() returns (id: nat)
      requires Ready()
      modifies store.db
      ensures Ready() && id == |old(store.db.durable).execs|
      ensures store.db.durable
        == MarkPhase(Log(StartExec(old(store.db.durable), step), step, ToolStarted), step, ActionDispatched)
    {
      store.db.Enter();
      id := store.StartExecution(step);
      var _ := store.AppendEvent(step, ToolStarted, None);
      store.SetStep(step, ActionDispatched, None, None, None);
      store.db.Leave(true);
    }

    method ExecuteActionNode()
      requires Ready() && pc.ExecuteAction?
      modifies this, store.db
      ensures Ready()
      ensures Did(old(ExecuteActionStep(store.db.durable, Snapshot())), store.db.durable, Snapshot())
    {
      hide MarkPhase, Log, StartExec;
      if !CallsTool(Snapshot()) {
        pc := Stopped;
      } else {
        var id := Dispatched();
        pc := RunTool(id);
      }
    }

    method RunToolNode(a: Answer)
      requires Ready() && pc.RunTool?
      modifies this
      ensures Ready()
      ensures Did(old(RunToolStep(store.db.durable, Snapshot(), a)), store.db.durable, Snapshot())
    {
      toolResult := Some(ToolReturn(Some(pc.exec), a.toolOk, a.facts, a.content));
      pc := CaptureObservation;
    }

    method CloseExecution(r: ToolReturn) returns (event: string)
      requires Ready()
      modifies store.db
      ensures Ready() && store.db.durable == CloseExec(old(store.db.durable), step, r)
      ensures event == LastEvent(store.db.durable)
    {
      store.db.Enter();
      event := store.AppendEvent(step, if r.ok then ToolFinished else ToolFailed, None);
      if r.exec.Some? {
        store.FinishExecution(r.exec.value, if r.ok then Succeeded else ExecFailed, event);
      }
      store.db.Leave(true);
    }

    method CountCall(ok: bool)
      modifies `executionState
      ensures Snapshot() == Called(old(Snapshot()), ok)
    {
      var k := executionState.counters;
      executionState := executionState.(counters := k.(toolCalls := k.toolCalls + 1,
                                                       errors := if ok then k.errors else k.errors + 1));
    }

    method CaptureObservationNode()
      requires Ready() && pc.CaptureObservation?
      modifies this, store.db
      ensures Ready()
      ensures Did(old(CaptureObservationStep(store.db.durable, Snapshot())), store.db.durable, Snapshot())
    {
      hide CloseExec, LastEvent, ClosedEvent, CallsTool, Called, CaptureObservationStep;
      CaptureCalls(store.db.durable, Snapshot());
      if toolResult.None? || !CallsTool(Snapshot()) {
        pc := Stopped;
        return;
      }
      var r := toolResult.value;
      CountCall(r.ok);
      var closed := ClosedEvent(store.db.working, r.exec);
      var event: string;
      if closed.Some? {
        event := closed.value;
      } else {
        event := CloseExecution(r);
      }
      pc := UpdateLedger(event);
    }

    /** The ledger's own commit; an exception rolls the patch record back with it. */
    method CommitLedger(patch: Patch, s: State) returns (ok: bool)
      requires Ready()
      modifies store.db
      ensures Ready()
      ensures var t := old(store.db.durable);
        var w := CommitState(RecordPatch(t, step, patch, Some(s.version)), s, executionState.version,
                             Some(|t.patches|), step);
        && (ok <==> w.Wrote?)
        && store.db.durable == if w.Wrote? then Log(w.tables, step, PatchApplied) else t
    {
      hide CommitState;
      store.db.Enter();
      var id := store.SavePatch(step, patch, Some(s.version));
      var r := store.Commit(s, executionState.version, Some(id), step);
      ok := r.Committed?;
      if ok {
        var _ := store.AppendEvent(step, PatchApplied, None);
      }
      store.db.Leave(ok);
    }

    method UpdateLedgerNode(a: Answer)
      requires Ready() && pc.UpdateLedger? && Ordered(Snapshot(), a)
      modifies this, store.db
      ensures Ready()
      ensures Did(old(UpdateLedgerStep(config, store.db.durable, Snapshot(), a)), store.db.durable, Snapshot())
    {
      hide Apply.ApplyPatch, CommitState, RecordPatch, Log, LedgerReadable, PairList, Ledger.Raises;
      if toolResult.None? || !CallsTool(Snapshot()) {
        pc := Stopped;
        return;
      }
      var r := toolResult.value;
      var tool := decision.value.control.action.tool;
      if !r.ok || r.facts == [] {
        pc := Advance(ToolOutput, r.content);
        return;
      }
      if PairList(executionState.domain, tool) {
        pc := if a.raises then Stopped else Advance(ToolOutput, r.content);
        return;
      }
      if !LedgerReadable(executionState.domain, tool) {
        pc := Stopped;
        return;
      }
      var entries := Ledger.Entries(executionState.domain, tool);
      var ops := Ledger.BuildLedgerOps(tool, entries, a.order, r.facts, config.ledgerCap, pc.event, step);
      if ops.None? || |ops.value| > MAX_PATCH_OPS {
        pc := Stopped;
        return;
      }
      var patch := Patch(executionState.version, ops.value);
      assert patch == LedgerPatch(config, Snapshot(), tool, r.facts, a.order);
      hide LedgerPatch;
      var effects := Draft.ApplyPatch(executionState, patch, None, config.policy, a.now);
      if effects.Refused? {
        pc := Advance(ToolOutput, r.content);
        return;
      }
      var ok := CommitLedger(patch, effects.state);
      if ok {
        executionState := effects.state;
        pc := Advance(ToolOutput, r.content);
      } else {
        pc := Stopped;
      }
    }

    // ---- waiting, failing, ending ----

    method AwaitHumanNode()
      requires Ready() && pc.AwaitHuman?
      modifies this, store.db
      ensures Ready()
      ensures Did(old(AwaitHumanStep(store.db.durable, Snapshot())), store.db.durable, Snapshot())
    {
      LogAndMark(HumanRequest, AwaitingHuman);
      pc := Finalize(WaitingForHuman);
    }

    method CountFailure(kind: FailKind)
      modifies `executionState, `consecutiveTimeouts, `consecutiveFailures, `loopTrips
      ensures Snapshot() == Failing(old(Snapshot()), kind)
    {
      var k := executionState.counters.(errors := executionState.counters.errors + 1);
      if kind.PatchFail? {
        k := k.(patchesRejected := k.patchesRejected + 1);
      }
      if kind.TimeoutFail? {
        consecutiveTimeouts := consecutiveTimeouts + 1;
      } else {
        consecutiveTimeouts := 0;
        k := k.(consecutiveFailures := k.consecutiveFailures + 1);
        consecutiveFailures := consecutiveFailures + 1;
      }
      if kind.LoopFail? {
        loopTrips := loopTrips + 1;
      }
      executionState := executionState.(counters := k);
    }

    method HandleFailureNode(a: Answer)
      requires Ready() && pc.HandleFailure?
      modifies this, store.db
      ensures Ready()
      ensures Did(old(HandleFailureStep(config, store.db.durable, Snapshot(), a)), store.db.durable, Snapshot())
    {
      hide MarkPhase, Log, Failing;
      CountFailure(pc.fail);
      LogAndMark(ErrorEvent, StepFailed);
      if consecutiveTimeouts >= config.maxTimeouts {
        pc := Finalize(Paused);
      } else if consecutiveFailures >= config.maxFailures || loopTrips >= config.maxFailures {
        pc := Finalize(Status.Failed);
      } else {
        pc := Advance(RuntimeFeedback, a.content);
      }
    }

    /** A commit of its own; whatever stops it leaves the tables as they were. */
    method CommitAlone(s: State) returns (r: CommitResult)
      requires Ready()
      modifies store.db
      ensures Ready()
      ensures match CommitState(old(store.db.durable), s, executionState.version, None, step)
              case Wrote(t) => r.Committed? && store.db.durable == t
              case StaleWrite => r.Lost? && store.db.durable == old(store.db.durable)
              case KeyConflict => r.Broken? && store.db.durable == old(store.db.durable)
    {
      hide CommitState;
      store.db.Enter();
      r := store.Commit(s, executionState.version, None, step);
      store.db.Leave(r.Committed?);
    }

    method FinalizeNode()
      requires Ready() && pc.Finalize?
      modifies this, store.db
      ensures Ready()
      ensures Did(old(FinalizeStep(store.db.durable, Snapshot())), store.db.durable, Snapshot())
    {
      hide CommitState;
      var status := pc.status;
      if executionState.status != status {
        var es := executionState.(status := status, version := executionState.version + 1);
        var r := CommitAlone(es);
        if r.Broken? {
          pc := Stopped;
          return;
        }
        if r.Committed? {
          executionState := es;
        }
      }
      pc := LogEnd(status);
    }

    // ---- resuming ----

    method LoadStateNode()
      requires Ready() && pc.LoadState?
      modifies this
      ensures Ready()
      ensures Did(old(LoadStateStep(store.db.durable, Snapshot())), store.db.durable, Snapshot())
    {
      if store.db.working.current.status in TERMINAL {
        pc := Stopped;
      } else {
        executionState := store.db.working.current;
        pc := LoadStep(pc.human);
      }
    }

    method LoadStepNode()
      requires Ready() && pc.LoadStep?
      modifies this
      ensures Ready()
      ensures Did(old(LoadStepStep(store.db.durable, Snapshot())), store.db.durable, Snapshot())
    {
      var latest := LatestStep(store.db.working);
      match latest {
        case None => pc := Stopped;
        case Some(n) =>
          step := n;
          stepRow := Some(store.db.working.steps[n]);
          pc := LogResume(pc.human);
      }
    }

    method DispatchNode()
      requires Ready() && pc.Dispatch?
      modifies this, store.db
      ensures Ready()
      ensures Did(old(DispatchStep(store.db.durable, Snapshot())), store.db.durable, Snapshot())
    {
      hide CommitState, Log;
      if stepRow.None? {
        pc := Stopped;
        return;
      }
      var es := Resumed(executionState);
      if stepRow.value.phase.AwaitingHuman? || executionState.status.WaitingForHuman? {
        if pc.human.None? {
          pc := Stopped;
          return;
        }
        var ok := CommitAnswer(es);
        if ok {
          executionState := es;
          decision := None;
          pc := Advance(HumanInput, pc.human.value);
        } else {
          pc := Stopped;
        }
      } else if !executionState.status.Running? {
        var r := CommitAlone(es);
        if r.Committed? {
          executionState := es;
          pc := Enter;
        } else {
          pc := Stopped;
        }
      } else {
        pc := Enter;
      }
    }

    method CommitAnswer(s: State) returns (ok: bool)
      requires Ready()
      modifies store.db
      ensures Ready()
      ensures var w := CommitState(old(store.db.durable), s, executionState.version, None, step);
        && (ok <==> w.Wrote?)
        && store.db.durable == if ok then Log(w.tables, step, HumanResponse) else old(store.db.durable)
    {
      hide CommitState;
      store.db.Enter();
      var r := store.Commit(s, executionState.version, None, step);
      ok := r.Committed?;
      if ok {
        var _ := store.AppendEvent(step, HumanResponse, None);
      }
      store.db.Leave(ok);
    }

    method InterruptOpen() returns (open: Option<nat>)
      requires Ready()
      modifies store.db
      ensures Ready() && open == FindOpenExec(old(store.db.durable).execs, step)
      ensures store.db.durable == Interrupt(old(store.db.durable), step)
    {
      open := store.FindOpen(step);
      store.db.Enter();
      var event := store.AppendEvent(step, ToolInterrupted, None);
      if open.Some? {
        store.FinishExecution(open.value, Interrupted, event);
      }
      store.db.Leave(true);
    }

    /** Re-entry by phase, once the step has begun anew. */
    method EnterAt(row: StepRow)
      requires Ready() && decision.None? && actionId.None? && toolResult.None?
      modifies this, store.db
      ensures Ready()
      ensures Did(old(EnterAtStep(store.db.durable, Snapshot(), row)), store.db.durable, Snapshot())
    {
      hide Interrupt, FindOpenExec;
      if row.phase.Closed? || row.phase.AwaitingHuman? {
        pc := Stopped;
      } else if row.phase.ObservationReady? || row.phase.ContextBuilt? || row.phase.StepFailed? {
        pc := BuildContext;
      } else if row.decision.None? {
        pc := Stopped;
      } else {
        decision := row.decision;
        if row.phase.DecisionRecorded? {
          pc := ApplyDecision;
        } else {
          actionId := row.actionId;
          if !row.phase.ActionDispatched? {
            match row.decision.value.control {
              case Query(_) => pc := RetrieveMemory;
              case Act(action) => pc := if action.ToolCall? && actionId.Some? then ExecuteAction else ApplyDecision;
              case Complete(_) => pc := ApplyDecision;
            }
          } else if CallsTool(Snapshot()) {
            var open := InterruptOpen();
            toolResult := Some(ToolReturn(open, false, [], ""));
            pc := CaptureObservation;
          } else {
            pc := Stopped;
          }
        }
      }
    }

    method EnterNode()
      requires Ready() && pc.Enter?
      modifies this, store.db
      ensures Ready()
      ensures Did(old(EnterStep(store.db.durable, Snapshot())), store.db.durable, Snapshot())
    {
      hide EnterAtStep;
      if stepRow.None? || stepRow.value.observation >= |store.db.working.observations| {
        pc := Stopped;
      } else {
        Begin(step, store.db.working.observations[stepRow.value.observation]);
        EnterAt(stepRow.value);
      }
    }

    // ---- any step ----

    /** One step of the program, from one commit to the next, is one step of the transition system. */
    method Step(a: Answer)
      requires Ready() && Ordered(Snapshot(), a)
      modifies this, store.db
      ensures Ready()
      ensures Did(old(Micro(config, store.db.durable, Snapshot(), a)), store.db.durable, Snapshot())
    {
      hide LoadStateStep, LoadStepStep, BuildContextStep, ReasonStep, ApplyDecisionStep, CommitStep,
        RecordRejectionStep,
        RequestActionStep, RetrieveMemoryStep, ExecuteActionStep, RunToolStep, CaptureObservationStep, UpdateLedgerStep,
        AdvanceStep, AwaitHumanStep, HandleFailureStep, FinalizeStep, DispatchStep, EnterStep, RecordStaleStep,
            ReloadStaleStep,
        Log, Ordered, Did;
      match pc {
        case LoadState(_) => LoadStateNode();
        case LoadStep(_) => LoadStepNode();
        case LogResume(human) => LogNode(RunResumed, Dispatch(human));
        case Dispatch(_) => DispatchNode();
        case Enter => EnterNode();
        case BuildContext => BuildContextNode();
        case Reason => ReasonNode(a);
        case ApplyDecision => ApplyDecisionNode(a);
        case Commit(_, _) => CommitNode();
        case RecordStale => RecordStaleNode();
        case ReloadStale => ReloadStaleNode();
        case RecordRejection => RecordRejectionNode();
        case RequestAction => RequestActionNode(a);
        case RetrieveMemory => RetrieveMemoryNode();
        case ExecuteAction => ExecuteActionNode();
        case RunTool(_) => RunToolNode(a);
        case CaptureObservation => CaptureObservationNode();
        case UpdateLedger(_) => UpdateLedgerNode(a);
        case Advance(_, _) => AdvanceNode();
        case AwaitHuman => AwaitHumanNode();
        case HandleFailure(_) => HandleFailureNode(a);
        case Finalize(_) => FinalizeNode();
        case LogEnd(_) => LogNode(RunEnded, Stopped);
        case Stopped => StayStopped();
      }
    }

    method LogNode(kind: EventKind, next: Pc)
      requires Ready()
      modifies this, store.db
      ensures Ready()
      ensures Did(old(Go(Log(store.db.durable, step, kind), Snapshot(), next)), store.db.durable, Snapshot())
    {
      hide Log;
      LogOnly(kind);
      pc := next;
    }

    method StayStopped()
      requires Ready() && pc.Stopped?
      ensures Did(Go(store.db.durable, Snapshot(), Stopped), store.db.durable, Snapshot())
    {
    }
  }

  // ---- starting ----

  /** The initial patch inside the creating transaction; an exception is left to the caller to roll back. */
  method Seed(c: Config, store: Store, s: State, now: int) returns (ok: bool)
    requires store.db.Valid() && store.db.depth == 1
    modifies store.db
    ensures store.db.Valid() && store.db.depth == 1 && store.db.durable == old(store.db.durable)
    ensures match Seeded(c, s, old(store.db.working), now)
            case Some(t) => ok && store.db.working == t
            case None => !ok
  {
    hide Apply.ApplyPatch, CommitState;
    if c.initial == [] {
      return true;
    }
    if |c.initial| > MAX_PATCH_OPS {
      return false;
    }
    var patch := Patch(0, c.initial);
    var applied := Draft.ApplyPatch(s, patch, None, c.policy.(schema := None), now);
    if applied.Refused? {
      return false;
    }
    var id := store.SavePatch(0, patch, Some(applied.state.version));
    var r := store.Commit(applied.state, 0, Some(id), 0);
    if !r.Committed? {
      return false;
    }
    var _ := store.AppendEvent(0, PatchApplied, None);
    ok := true;
  }

  /** `Runtime.start`: everything in one transaction; a refused initial patch leaves the database as it was. */
  method StartRun(c: Config, store: Store, s: State, input: string, now: int, limit: nat) returns (r: Option<Runner>)
    requires store.db.Valid() && store.db.depth == 0
    modifies store.db
    ensures store.db.Valid() && store.db.depth == 0
    ensures match Start(c, s, input, now, limit)
            case Some(sys) =>
              && r.Some? && fresh(r.value) && r.value.store == store && r.value.config == c
              && store.db.durable == sys.t && sys.procs == map[0 := r.value.Snapshot()]
            case None => r.None? && store.db.durable == old(store.db.durable)
  {
    hide Seeded, CreateStep;
    store.db.Enter();
    store.db.Execute(Tables(s, map[0 := VersionRow(0, None, s)], [], [], map[], [], [], []));
    var _ := store.AppendEvent(0, RunCreated, None);
    var _ := store.AppendEvent(0, TaskInputEvent, None);
    store.KeepObservation(TaskInput, input);
    assert store.db.working == CreatedTables(s, input);
    var obs := store.db.working.observations[0];
    hide CreatedTables;
    var ok := Seed(c, store, s, now);
    if ok {
      ok := store.OpenStep(0, 0);
    }
    store.db.Leave(ok);
    if !ok {
      return None;
    }
    var runner := new Runner(c, store, BuildContext, store.db.working.current, Some(obs), limit);
    r := Some(runner);
  }

  predicate CommitsTo(t: Tables, s: State, archived: seq<Archived>, patch: Patch, expected: nat, step: nat, u: Tables) {
    var id := |t.patches|;
    var w := CommitState(RecordPatch(t, step, patch, Some(s.version)), s, expected, Some(id), step);
    && w.Wrote?
    && u == UpdateStep(Log(Log(ArchiveItems(w.tables, step, archived), step, PatchApplied), step, StateCommittedEvent),
                       step,
                       (r: StepRow) => r.(phase := StateCommitted, patchId := Some(id)))
  }
}
