/** The run of one process at a time: what the latest step row, the tool executions and the process agree on. */
module Solo {
  import opened Domain
  import opened State
  import opened Tables
  import opened Lifecycle
  import opened LoopGuard
  import Apply
  import ApplyFrame
  import VersionSteps

  // ---- the tables between two steps ----

  function Latest(t: Tables): nat {
    t.current.counters.steps
  }

  predicate Active(s: Status) {
    s == Running || s == Status.Blocked
  }

  /** The decision of the row names a version that is no longer current. */
  predicate DecisionCommitted(row: StepRow, version: nat) {
    row.decision.Some? && row.decision.value.patch.expected < version
  }

  predicate IsToolCall(d: Decision) {
    d.control.Act? && d.control.action.ToolCall?
  }

  predicate AsksHuman(d: Decision) {
    d.control.Act? && d.control.action.AskHuman?
  }

  /** What the phase of the latest row says about the rest of the row and about the state. The latest row is never
      closed. */
  predicate RowFacts(row: StepRow, status: Status, version: nat) {
    match row.phase
    case DecisionRecorded => row.decision.Some?
    case StateCommitted => DecisionCommitted(row, version)
    case ActionPending => DecisionCommitted(row, version) && row.decision.value.control.Act? && row.actionId.Some?
    case ActionDispatched => DecisionCommitted(row, version) && IsToolCall(row.decision.value) && Active(status)
    case AwaitingHuman => DecisionCommitted(row, version) && AsksHuman(row.decision.value)
    case Closed => false
    case _ => true
  }

  /** Every step has at most one execution; one that belongs to the latest step was dispatched there; only that one
      can be open. */
  predicate ExecFacts(execs: seq<ExecRow>, n: nat, phase: Phase) {
    && (forall e <- execs ::
        e.step <= n && (e.step == n ==> phase.ActionDispatched?) && (e.status.Started? ==> e.step == n))
    && (forall i, j :: 0 <= i < j < |execs| ==> execs[i].step != execs[j].step)
  }

  predicate NoneOpen(execs: seq<ExecRow>) {
    forall e <- execs :: !e.status.Started?
  }

  predicate HasExec(execs: seq<ExecRow>, step: nat) {
    exists e <- execs :: e.step == step
  }

  /** No step invoked its tool twice, and every invocation has its execution row. */
  predicate InvokedOnce(invoked: seq<nat>, execs: seq<ExecRow>) {
    && (forall i, j :: 0 <= i < j < |invoked| ==> invoked[i] != invoked[j])
    && (forall k <- invoked :: HasExec(execs, k))
  }

  ghost predicate InOrder(t: Tables, invoked: seq<nat>) {
    var n := Latest(t);
    && (forall k: nat :: k in t.steps <==> k <= n)
    && (forall k <- t.steps :: k < n ==> t.steps[k].phase.Closed?)
    && RowFacts(t.steps[n], t.current.status, t.current.version)
    && ExecFacts(t.execs, n, t.steps[n].phase)
    && InvokedOnce(invoked, t.execs)
  }

  // ---- the process ----

  predicate BeforeContext(phase: Phase) {
    phase.ObservationReady? || phase.ContextBuilt? || phase.StepFailed?
  }

  predicate Deciding(phase: Phase) {
    phase.DecisionRecorded? || phase.StateCommitted? || phase.ActionPending?
  }

  /** Where the process stands, against the latest row. Nothing a process proposes or commits is ever stale here. */
  predicate Fits(row: StepRow, execs: seq<ExecRow>, invoked: seq<nat>, p: Proc) {
    var status := p.exec.status;
    match p.pc
    case LoadState(_) => true
    case LoadStep(_) => status !in TERMINAL
    case LogResume(_) => status !in TERMINAL && p.row == Some(row)
    case Dispatch(_) => status !in TERMINAL && p.row == Some(row)
    case Enter => status == Running && p.row == Some(row) && !row.phase.AwaitingHuman?
    case BuildContext => Active(status) && BeforeContext(row.phase)
    case Reason => Active(status) && row.phase.ContextBuilt?
    case ApplyDecision => Active(status) && Deciding(row.phase) && p.decision == row.decision
    case Commit(s, _) =>
      && Active(status) && row.phase.DecisionRecorded? && p.decision == row.decision && p.decision.Some?
      && p.decision.value.patch.expected == p.exec.version && s.version == p.exec.version + 1
      && s.counters.steps == p.exec.counters.steps
      && (s.status == StatusAfter(Running, p.decision.value.control)
          || s.status == StatusAfter(Status.Blocked, p.decision.value.control))
    case RecordStale => false
    case ReloadStale => false
    case RecordRejection => Active(status) && Deciding(row.phase)
    case RequestAction =>
      && row.phase.StateCommitted? && p.decision == row.decision && p.decision.Some? && p.decision.value.control.Act?
      && if AsksHuman(p.decision.value) then status == WaitingForHuman else Active(status)
    case RetrieveMemory => Active(status) && row.phase.StateCommitted? && p.decision == row.decision
    case ExecuteAction =>
      Active(status) && (row.phase.StateCommitted? || row.phase.ActionPending?) && p.decision == row.decision
          && CallsTool(p)
    case RunTool(e) =>
      && Active(status) && row.phase.ActionDispatched? && CallsTool(p)
      && e < |execs| && execs[e].step == p.step && p.step !in invoked
      && forall i :: 0 <= i < |execs| && execs[i].status.Started? ==> i == e
    case CaptureObservation =>
      && Active(status) && row.phase.ActionDispatched? && CallsTool(p) && p.tool.Some?
      && forall i :: 0 <= i < |execs| && execs[i].status.Started? ==> p.tool.value.exec == Some(i)
    case UpdateLedger(_) => Active(status) && row.phase.ActionDispatched? && CallsTool(p) && p.tool.Some?
        && NoneOpen(execs)
    case Advance(_, _) => Active(status) && NoneOpen(execs)
    case AwaitHuman => row.phase.ActionPending? && p.decision == row.decision && p.decision.Some?
        && AsksHuman(p.decision.value) && status == WaitingForHuman
    case HandleFailure(_) => Active(status) && !row.phase.ActionDispatched? && !row.phase.AwaitingHuman?
    case Finalize(s) => !row.phase.ActionDispatched? && (status in TERMINAL ==> s == status)
    case LogEnd(_) => true
    case Stopped => true
  }

  predicate Unread(pc: Pc) {
    pc.LoadState? || pc.LoadStep?
  }

  /** The process holds the current state, counters other than the step counter aside, and stands at the latest step. */
  predicate UpToDate(t: Tables, p: Proc) {
    && p.exec.version == t.current.version && p.exec.status == t.current.status && p.exec.counters.steps == Latest(t)
    && (Unread(p.pc) || p.step == Latest(t))
  }

  ghost predicate Together(t: Tables, p: Proc, invoked: seq<nat>) {
    && InOrder(t, invoked)
    && (p.pc.Stopped? || (UpToDate(t, p) && Fits(t.steps[Latest(t)], t.execs, invoked, p)))
  }

  function InvokedAfter(p: Proc, invoked: seq<nat>): seq<nat> {
    if p.pc.RunTool? then invoked + [p.step] else invoked
  }

  // ---- moves of the latest row ----

  /** A move that only rewrites the latest row. */
  lemma RowMoved(t: Tables, u: Tables, row: StepRow, invoked: seq<nat>)
    requires InOrder(t, invoked)
    requires u.current == t.current && u.execs == t.execs && u.steps == t.steps[Latest(t) := row]
    requires RowFacts(row, t.current.status, t.current.version)
    requires row.phase.ActionDispatched? <==> t.steps[Latest(t)].phase.ActionDispatched?
    ensures InOrder(u, invoked)
  {}

  lemma Untouched(t: Tables, u: Tables, invoked: seq<nat>)
    requires InOrder(t, invoked) && u.current == t.current && u.execs == t.execs && u.steps == t.steps
    ensures InOrder(u, invoked)
  {}

  // ---- reading, building, asking ----

  lemma LoadTogether(t: Tables, p: Proc, invoked: seq<nat>)
    requires Together(t, p, invoked)
    ensures p.pc.LoadState? ==> Together(t, LoadStateStep(t, p).proc, invoked)
    ensures p.pc.LoadStep? ==> Together(t, LoadStepStep(t, p).proc, invoked)
  {
    assert Latest(t) in t.steps;
  }

  lemma BuildContextTogether(t: Tables, p: Proc, invoked: seq<nat>)
    requires Together(t, p, invoked) && p.pc.BuildContext?
    ensures var m := BuildContextStep(t, p); Together(m.tables, m.proc, invoked)
  {
    var m := BuildContextStep(t, p);
    if m.tables != t {
      RowMoved(t, m.tables, t.steps[p.step].(phase := ContextBuilt), invoked);
    }
  }

  lemma ReasonShape(t: Tables, p: Proc, a: Answer)
    requires p.step in t.steps
    ensures var m := ReasonStep(t, p, a);
      && m.tables.current == t.current && m.tables.execs == t.execs
      && m.proc == p.(modelCalls := m.proc.modelCalls, decision := m.proc.decision, pc := m.proc.pc)
      && match a.decision
         case Some(d) =>
           && m.tables.steps == t.steps[p.step := t.steps[p.step].(phase := DecisionRecorded, decision := Some(d))]
           && m.proc.pc.ApplyDecision? && m.proc.decision == Some(d)
         case None => m.tables.steps == t.steps && m.proc.pc.HandleFailure?
  {
    hide WithEvent;
  }

  lemma ReasonTogether(t: Tables, p: Proc, a: Answer, invoked: seq<nat>)
    requires Together(t, p, invoked) && p.pc.Reason?
    ensures var m := ReasonStep(t, p, a); Together(m.tables, m.proc, invoked)
  {
    hide InOrder, ReasonStep;
    RowInOrder(t, invoked);
    ReasonShape(t, p, a);
    var m := ReasonStep(t, p, a);
    if a.decision.Some? {
      RowMoved(t, m.tables, t.steps[p.step].(phase := DecisionRecorded, decision := a.decision), invoked);
    } else {
      Untouched(t, m.tables, invoked);
    }
  }

  // ---- deciding and committing ----

  lemma ApplyDecisionShape(c: Config, t: Tables, p: Proc, a: Answer)
    requires p.decision.Some?
    ensures var m, d := ApplyDecisionStep(c, t, p, a), p.decision.value;
      || m == Go(t, p, RecordRejection)
      || (&& m.proc.pc.Commit? && m == Go(t, p, m.proc.pc) && d.patch.expected == p.exec.version
          && var s := m.proc.pc.target;
             && s.version == p.exec.version + 1 && s.counters.steps == p.exec.counters.steps
             && (Active(p.exec.status)
                 ==> s.status == StatusAfter(Running, d.control) || s.status == StatusAfter(Status.Blocked, d.control)))
  {
    var m := ApplyDecisionStep(c, t, p, a);
    if m != Go(t, p, RecordRejection) {
      ApplyFrame.PatchFrame(p.exec, p.decision.value.patch, Some(EventIds(t.events)), c.policy, a.now);
    }
    hide Apply.ApplyPatch;
  }

  lemma DecidingHasDecision(t: Tables, invoked: seq<nat>)
    requires InOrder(t, invoked)
    ensures Latest(t) in t.steps
    ensures var row := t.steps[Latest(t)]; Deciding(row.phase) ==>
      row.decision.Some? && (!row.phase.DecisionRecorded? ==> DecisionCommitted(row, t.current.version))
  {}

  /** Only a decision that is not committed yet can pass; everything else is refused as stale. */
  lemma ApplyDecisionTogether(c: Config, t: Tables, p: Proc, a: Answer, invoked: seq<nat>)
    requires Together(t, p, invoked) && p.pc.ApplyDecision?
    ensures Together(t, ApplyDecisionStep(c, t, p, a).proc, invoked)
  {
    hide ApplyDecisionStep, StatusAfter, InOrder;
    DecidingHasDecision(t, invoked);
    ApplyDecisionShape(c, t, p, a);
  }

  /** The tables after a commit, as far as rows and executions go. */
  lemma CommittedInOrder(t: Tables, u: Tables, row: StepRow, s: State, invoked: seq<nat>)
    requires InOrder(t, invoked) && u.current == s && u.execs == t.execs
    requires s.version >= t.current.version && s.counters.steps == Latest(t)
    requires u.steps == t.steps[Latest(t) := row] && RowFacts(row, s.status, s.version)
    requires row.phase.ActionDispatched? <==> t.steps[Latest(t)].phase.ActionDispatched?
    ensures InOrder(u, invoked)
  {}

  lemma CommitShape(t: Tables, p: Proc)
    requires p.pc.Commit? && p.decision.Some? && p.step in t.steps && p.exec.version == t.current.version
    ensures var m := CommitStep(t, p);
      || (m.proc.pc.Stopped? && m.tables == t)
      || (&& m.tables.current == p.pc.target && m.tables.execs == t.execs
          && m.tables.steps == t.steps[p.step := CommittedRow(t.steps[p.step], |t.patches|)]
          && m.proc == p.(exec := p.pc.target, pc := m.proc.pc, failures := 0, timeouts := 0)
          && match p.decision.value.control
             case Complete(_) => m.proc.pc == Finalize(p.pc.target.status)
             case Query(_) => m.proc.pc.RetrieveMemory?
             case Act(_) => m.proc.pc.RequestAction?)
  {}

  lemma CommitTogether(t: Tables, p: Proc, invoked: seq<nat>)
    requires Together(t, p, invoked) && p.pc.Commit?
    ensures var m := CommitStep(t, p); Together(m.tables, m.proc, invoked)
  {
    hide CommitStep, InOrder;
    RowInOrder(t, invoked);
    CommitShape(t, p);
    var m := CommitStep(t, p);
    if !m.proc.pc.Stopped? {
      CommittedInOrder(t, m.tables, CommittedRow(t.steps[p.step], |t.patches|), p.pc.target, invoked);
    }
  }

  lemma RecordRejectionTogether(t: Tables, p: Proc, invoked: seq<nat>)
    requires Together(t, p, invoked) && p.pc.RecordRejection?
    ensures var m := RecordRejectionStep(t, p); Together(m.tables, m.proc, invoked)
  {
    Untouched(t, RecordRejectionStep(t, p).tables, invoked);
  }

  lemma RequestActionShape(c: Config, t: Tables, p: Proc, a: Answer)
    requires p.decision.Some? && p.decision.value.control.Act?
    ensures var m, action := RequestActionStep(c, t, p, a), p.decision.value.control.action;
      || m == Crash(t, p)
      || (&& m.tables == SaveRequest(t, p.step)
          && m.proc.exec == p.exec && m.proc.step == p.step && m.proc.decision == p.decision
          && match m.proc.pc
             case AwaitHuman => action.AskHuman?
             case ExecuteAction => action.ToolCall?
             case Advance(_, _) => action.Continue?
             case HandleFailure(_) => !action.AskHuman?
             case _ => false)
  {
    hide Trips, Remembered, SaveRequest;
  }

  lemma RequestActionTogether(c: Config, t: Tables, p: Proc, a: Answer, invoked: seq<nat>)
    requires Together(t, p, invoked) && p.pc.RequestAction?
    ensures var m := RequestActionStep(c, t, p, a); Together(m.tables, m.proc, invoked)
  {
    RowMoved(t, SaveRequest(t, p.step), t.steps[p.step].(phase := ActionPending, actionId := Some(|t.actions|)),
             invoked);
    RequestActionShape(c, t, p, a);
    hide InOrder, SaveRequest, RequestActionStep;
  }

  // ---- closing the step ----

  lemma NextStepTogether(t0: Tables, t: Tables, p: Proc, obs: Observation, invoked: seq<nat>)
    requires InOrder(t0, invoked) && UpToDate(t0, p) && !Unread(p.pc) && Active(p.exec.status) && NoneOpen(t0.execs)
    requires t.current == t0.current && t.execs == t0.execs && t.versions == t0.versions
    requires t.steps == t0.steps[p.step := t0.steps[p.step].(phase := Closed)]
    ensures var m := NextStep(t0, t, p, obs); Together(m.tables, m.proc, invoked)
  {
    var m := NextStep(t0, t, p, obs);
    if !m.proc.pc.Stopped? {
      NextInOrder(t0, m.tables, obs.id, invoked);
      hide InOrder;
    }
  }

  lemma NextInOrder(t: Tables, u: Tables, obs: nat, invoked: seq<nat>)
    requires InOrder(t, invoked) && NoneOpen(t.execs)
    requires u.current.counters.steps == Latest(t) + 1 && u.execs == t.execs
    requires u.steps == t.steps[Latest(t) := t.steps[Latest(t)].(phase := Closed)][Latest(t)
        + 1 := StepRow(ObservationReady, obs, None, None, None)]
    ensures InOrder(u, invoked)
  {}

  lemma AdvanceTogether(t: Tables, p: Proc, invoked: seq<nat>)
    requires Together(t, p, invoked) && p.pc.Advance?
    ensures var m := AdvanceStep(t, p); Together(m.tables, m.proc, invoked)
  {
    hide NextStep;
    var obs := Observation(|t.observations|, p.pc.kind, p.pc.content);
    NextStepTogether(t, MarkPhase(SaveObservation(Log(t, p.step + 1, ObservationEvent), obs.kind, obs.content), p.step,
                                  Closed), p, obs, invoked);
  }

  lemma RetrieveMemoryTogether(t: Tables, p: Proc, invoked: seq<nat>)
    requires Together(t, p, invoked) && p.pc.RetrieveMemory?
    ensures var m := RetrieveMemoryStep(t, p); Together(m.tables, m.proc, invoked)
  {
    hide NextStep;
    if !(p.obs.None? || p.decision.None? || !p.decision.value.control.Query?) {
      var p1 := p.(exec := Count1(p.exec, (k: Counters) => k.(retrievals := k.retrievals + 1)));
      NextStepTogether(t, MarkPhase(Log(t, p.step, MemoryRetrieval), p.step, Closed), p1, p.obs.value, invoked);
    }
  }

  // ---- tools ----

  /** The latest row is dispatched together with its one execution. */
  lemma DispatchedInOrder(t: Tables, u: Tables, invoked: seq<nat>)
    requires InOrder(t, invoked) && !t.steps[Latest(t)].phase.ActionDispatched?
    requires u.current == t.current && u.execs == t.execs + [ExecRow(Latest(t), Started, None)]
    requires u.steps == t.steps[Latest(t) := t.steps[Latest(t)].(phase := ActionDispatched)]
    requires RowFacts(u.steps[Latest(t)], t.current.status, t.current.version)
    ensures InOrder(u, invoked)
    ensures forall i :: 0 <= i < |u.execs| && u.execs[i].status.Started? ==> i == |t.execs|
    ensures Latest(t) !in invoked
  {
    MoreExecs(t.execs, u.execs, invoked);
    forall k | k in invoked ensures k != Latest(t) {
      assert HasExec(t.execs, k);
    }
  }

  lemma MoreExecs(es: seq<ExecRow>, more: seq<ExecRow>, invoked: seq<nat>)
    requires InvokedOnce(invoked, es)
    requires |es| <= |more| && forall i :: 0 <= i < |es| ==> more[i].step == es[i].step
    ensures InvokedOnce(invoked, more)
  {
    forall k | k in invoked ensures HasExec(more, k) {
      assert HasExec(es, k);
      var i :| 0 <= i < |es| && es[i].step == k;
      assert more[i].step == k;
    }
  }

  lemma ExecuteActionTogether(t: Tables, p: Proc, invoked: seq<nat>)
    requires Together(t, p, invoked) && p.pc.ExecuteAction?
    ensures var m := ExecuteActionStep(t, p); Together(m.tables, m.proc, invoked)
  {
    DispatchedInOrder(t, ExecuteActionStep(t, p).tables, invoked);
    hide InOrder;
  }

  lemma RunToolTogether(t: Tables, p: Proc, a: Answer, invoked: seq<nat>)
    requires Together(t, p, invoked) && p.pc.RunTool?
    ensures Together(t, RunToolStep(t, p, a).proc, invoked + [p.step])
  {
    assert HasExec(t.execs, p.step);
  }

  /** An execution is closed; nothing else moves. */
  lemma ClosedInOrder(t: Tables, u: Tables, id: nat, row: ExecRow, invoked: seq<nat>)
    requires InOrder(t, invoked) && id < |t.execs|
    requires u.current == t.current && u.steps == t.steps && u.execs == t.execs[id := row]
    requires row.step == t.execs[id].step && !row.status.Started?
    ensures InOrder(u, invoked)
  {
    MoreExecs(t.execs, u.execs, invoked);
  }

  lemma CloseInOrder(t: Tables, step: nat, r: ToolReturn, invoked: seq<nat>)
    requires InOrder(t, invoked)
    requires forall i :: 0 <= i < |t.execs| && t.execs[i].status.Started? ==> r.exec == Some(i)
    ensures var u := CloseExec(t, step, r);
      InOrder(u, invoked) && NoneOpen(u.execs) && u.current == t.current && u.steps == t.steps
  {
    var u := CloseExec(t, step, r);
    if r.exec.Some? && r.exec.value < |t.execs| {
      ClosedInOrder(t, u, r.exec.value, u.execs[r.exec.value], invoked);
    } else {
      Untouched(t, u, invoked);
    }
  }

  lemma AlreadyClosed(t: Tables, r: ToolReturn)
    requires ClosedEvent(t, r.exec).Some?
    requires forall i :: 0 <= i < |t.execs| && t.execs[i].status.Started? ==> r.exec == Some(i)
    ensures NoneOpen(t.execs)
  {}

  lemma CaptureObservationShape(t: Tables, p: Proc)
    requires p.tool.Some? && CallsTool(p)
    ensures var m := CaptureObservationStep(t, p);
      && m.tables == (if ClosedEvent(t, p.tool.value.exec).Some? then t else CloseExec(t, p.step, p.tool.value))
      && m.proc.pc.UpdateLedger? && m.proc.tool == p.tool && m.proc.decision == p.decision && m.proc.step == p.step
      && m.proc.exec == p.exec.(counters := m.proc.exec.counters) && m.proc.exec.counters.steps == p.exec.counters.steps
  {
    hide CloseExec, ClosedEvent, LastEvent;
  }

  lemma CaptureObservationTogether(t: Tables, p: Proc, invoked: seq<nat>)
    requires Together(t, p, invoked) && p.pc.CaptureObservation?
    ensures var m := CaptureObservationStep(t, p); Together(m.tables, m.proc, invoked)
  {
    hide InOrder, CloseExec, ClosedEvent, NoneOpen, CaptureObservationStep;
    var r := p.tool.value;
    CloseInOrder(t, p.step, r, invoked);
    if ClosedEvent(t, r.exec).Some? {
      AlreadyClosed(t, r);
    }
    CaptureObservationShape(t, p);
  }

  lemma UpdateLedgerTogether(c: Config, t: Tables, p: Proc, a: Answer, invoked: seq<nat>)
    requires Together(t, p, invoked) && p.pc.UpdateLedger? && Ordered(p, a)
    ensures var m := UpdateLedgerStep(c, t, p, a); Together(m.tables, m.proc, invoked)
  {
    hide Apply.ApplyPatch, UpdateLedgerStep, LedgerPatch;
    VersionSteps.UpdateLedgerShape(c, t, p, a);
    var m := UpdateLedgerStep(c, t, p, a);
    if m != Crash(t, p) && m != Go(t, p, Advance(ToolOutput, p.tool.value.content)) {
      var patch := LedgerPatch(c, p, p.decision.value.control.action.tool, p.tool.value.facts, a.order);
      ApplyFrame.PatchFrame(p.exec, patch, None, c.policy, a.now);
      var s := Apply.ApplyPatch(p.exec, patch, None, c.policy, a.now).state;
      CommittedInOrder(t, m.tables, t.steps[Latest(t)], s, invoked);
      hide InOrder;
    }
  }

  // ---- waiting, failing, ending ----

  lemma AwaitHumanTogether(t: Tables, p: Proc, invoked: seq<nat>)
    requires Together(t, p, invoked) && p.pc.AwaitHuman?
    ensures var m := AwaitHumanStep(t, p); Together(m.tables, m.proc, invoked)
  {
    RowMoved(t, AwaitHumanStep(t, p).tables, t.steps[p.step].(phase := AwaitingHuman), invoked);
    hide InOrder;
  }

  lemma HandleFailureShape(c: Config, t: Tables, p: Proc, a: Answer)
    requires p.pc.HandleFailure?
    ensures var m := HandleFailureStep(c, t, p, a);
      && m.tables == MarkPhase(Log(t, p.step, ErrorEvent), p.step, StepFailed)
      && m.proc.step == p.step
      && m.proc.exec == p.exec.(counters := m.proc.exec.counters) && m.proc.exec.counters.steps == p.exec.counters.steps
      && m.proc.pc in {Finalize(Paused), Finalize(Failed), Advance(RuntimeFeedback, a.content)}
  {
    hide MarkPhase, Log;
  }

  lemma HandleFailureTogether(c: Config, t: Tables, p: Proc, a: Answer, invoked: seq<nat>)
    requires Together(t, p, invoked) && p.pc.HandleFailure?
    ensures var m := HandleFailureStep(c, t, p, a); Together(m.tables, m.proc, invoked)
  {
    hide HandleFailureStep;
    HandleFailureShape(c, t, p, a);
    RowMoved(t, MarkPhase(Log(t, p.step, ErrorEvent), p.step, StepFailed), t.steps[p.step].(phase := StepFailed),
             invoked);
    hide InOrder;
  }

  lemma FinalizeTogether(t: Tables, p: Proc, invoked: seq<nat>)
    requires Together(t, p, invoked) && p.pc.Finalize?
    ensures var m := FinalizeStep(t, p); Together(m.tables, m.proc, invoked)
  {
    hide FinalizeStep, InOrder;
    RowInOrder(t, invoked);
    FinalizeShape(t, p);
    var m := FinalizeStep(t, p);
    if m.tables != t {
      CommittedInOrder(t, m.tables, t.steps[Latest(t)], m.proc.exec, invoked);
    }
  }

  lemma FinalizeShape(t: Tables, p: Proc)
    requires p.pc.Finalize?
    ensures var m := FinalizeStep(t, p);
      || (m.tables == t && m.proc.step == p.step
          && (m.proc.pc.Stopped? || (m.proc.pc.LogEnd? && m.proc.exec == p.exec)))
      || (&& m.tables.steps == t.steps && m.tables.execs == t.execs && m.tables.current == m.proc.exec
          && m.proc.exec == p.exec.(version := p.exec.version + 1, status := m.proc.exec.status)
          && p.exec.version == t.current.version && m.proc.pc.LogEnd? && m.proc.step == p.step)
  {}

  // ---- resuming ----

  lemma DispatchShape(t: Tables, p: Proc)
    requires p.pc.Dispatch? && p.row.Some?
    ensures var m := DispatchStep(t, p);
      && m.tables.execs == t.execs && m.tables.steps == t.steps && m.proc.step == p.step && m.proc.row == p.row
      && (m.proc.pc.Stopped? ==> m.tables == t)
      && (!m.proc.pc.Stopped? ==>
            && (m.proc.exec == m.tables.current == Resumed(p.exec)
                || (m.proc.exec == p.exec && m.tables.current == t.current))
            && m.proc.exec.status == Running
            && var waiting := p.row.value.phase.AwaitingHuman? || p.exec.status == WaitingForHuman;
               if waiting then m.proc.pc.Advance? else m.proc.pc.Enter?)
  {}

  lemma DispatchTogether(t: Tables, p: Proc, invoked: seq<nat>)
    requires Together(t, p, invoked) && p.pc.Dispatch?
    ensures var m := DispatchStep(t, p); Together(m.tables, m.proc, invoked)
  {
    hide DispatchStep;
    DispatchShape(t, p);
    var m := DispatchStep(t, p);
    if m.tables.current != t.current {
      CommittedInOrder(t, m.tables, t.steps[Latest(t)], m.proc.exec, invoked);
      hide InOrder;
    } else {
      Untouched(t, m.tables, invoked);
      hide InOrder;
    }
  }

  lemma EnterTogether(t: Tables, p: Proc, invoked: seq<nat>)
    requires Together(t, p, invoked) && p.pc.Enter?
    ensures var m := EnterStep(t, p); Together(m.tables, m.proc, invoked)
  {
    hide InOrder, Interrupt, EnterStep;
    RowInOrder(t, invoked);
    if t.steps[p.step].phase.ActionDispatched? {
      InterruptTogether(t, p.step, invoked);
      EnterInterrupted(t, p);
    } else {
      EnterElsewhere(t, p, invoked);
    }
  }

  lemma EnterInterrupted(t: Tables, p: Proc)
    requires p.row.Some? && p.row.value.phase.ActionDispatched?
    ensures var m := EnterStep(t, p);
      || (m.proc.pc.Stopped? && m.tables == t)
      || (&& m.tables == Interrupt(t, p.step) && m.proc.pc.CaptureObservation? && CallsTool(m.proc) && m.proc.tool.Some?
          && m.proc.exec == p.exec && m.proc.step == p.step)
  {
    hide Interrupt, FindOpenExec;
  }

  lemma EnterElsewhere(t: Tables, p: Proc, invoked: seq<nat>)
    requires Together(t, p, invoked) && p.pc.Enter? && !t.steps[p.step].phase.ActionDispatched?
    ensures var m := EnterStep(t, p); Together(m.tables, m.proc, invoked)
  {
    hide InOrder, EnterStep, IsToolCall, AsksHuman, ExecFacts, InvokedOnce, CallsTool;
    RowInOrder(t, invoked);
    EnterElsewhereShape(t, p);
  }

  lemma EnterElsewhereShape(t: Tables, p: Proc)
    requires p.row.Some? && !p.row.value.phase.ActionDispatched?
    ensures var m, row := EnterStep(t, p), p.row.value;
      && m.tables == t
      && (m.proc.pc.Stopped? ||
          (&& m.proc.exec == p.exec && m.proc.step == p.step
           && if BeforeContext(row.phase) then m.proc.pc.BuildContext?
              else
                && Deciding(row.phase) && row.decision.Some? && m.proc.decision == row.decision
                && (|| m.proc.pc.ApplyDecision?
                    || (m.proc.pc.RetrieveMemory? && !row.phase.DecisionRecorded? && row.decision.value.control.Query?)
                    || (m.proc.pc.ExecuteAction? && !row.phase.DecisionRecorded? && CallsTool(m.proc)))))
  {}

  lemma RowInOrder(t: Tables, invoked: seq<nat>)
    requires InOrder(t, invoked)
    ensures Latest(t) in t.steps && RowFacts(t.steps[Latest(t)], t.current.status, t.current.version)
  {
    hide RowFacts, ExecFacts, InvokedOnce;
  }

  /** After the interruption nothing is open; before it, at most the one that is closed now. */
  lemma InterruptTogether(t: Tables, step: nat, invoked: seq<nat>)
    requires InOrder(t, invoked) && step == Latest(t)
    ensures InOrder(Interrupt(t, step), invoked) && NoneOpen(Interrupt(t, step).execs)
    ensures Interrupt(t, step).current == t.current && Interrupt(t, step).steps == t.steps
  {
    var u := Interrupt(t, step);
    var open := FindOpenExec(t.execs, step);
    if open.Some? {
      ClosedInOrder(t, u, open.value, u.execs[open.value], invoked);
    } else {
      Untouched(t, u, invoked);
    }
  }

  // ---- any step ----

  /** One step of the only process keeps table, executions and process together. */
  lemma MicroTogether(c: Config, t: Tables, p: Proc, a: Answer, invoked: seq<nat>)
    requires Together(t, p, invoked) && Ordered(p, a)
    ensures var m := Micro(c, t, p, a); Together(m.tables, m.proc, InvokedAfter(p, invoked))
  {
    hide Together, LoadStateStep, LoadStepStep, BuildContextStep, ReasonStep, ApplyDecisionStep, CommitStep,
      RecordRejectionStep,
      RequestActionStep, RetrieveMemoryStep, ExecuteActionStep, RunToolStep, CaptureObservationStep, UpdateLedgerStep,
      AdvanceStep, AwaitHumanStep, HandleFailureStep, FinalizeStep, DispatchStep, EnterStep, RecordStaleStep,
          ReloadStaleStep, Log;
    match p.pc {
      case LoadState(_) => LoadTogether(t, p, invoked); LoadLeavesTables(t, p);
      case LoadStep(_) => LoadTogether(t, p, invoked); LoadLeavesTables(t, p);
      case LogResume(human) => LogTogether(t, p, RunResumed, Dispatch(human), invoked);
      case Dispatch(_) => DispatchTogether(t, p, invoked);
      case Enter => EnterTogether(t, p, invoked);
      case BuildContext => BuildContextTogether(t, p, invoked);
      case Reason => ReasonTogether(t, p, a, invoked);
      case ApplyDecision => ApplyDecisionTogether(c, t, p, a, invoked); ApplyDecisionLeavesTables(c, t, p, a);
      case Commit(_, _) => CommitTogether(t, p, invoked);
      case RecordStale => NeverStale(t, p, invoked);
      case ReloadStale => NeverStale(t, p, invoked);
      case RecordRejection => RecordRejectionTogether(t, p, invoked);
      case RequestAction => RequestActionTogether(c, t, p, a, invoked);
      case RetrieveMemory => RetrieveMemoryTogether(t, p, invoked);
      case ExecuteAction => ExecuteActionTogether(t, p, invoked);
      case RunTool(_) => RunToolTogether(t, p, a, invoked); RunToolLeavesTables(t, p, a);
      case CaptureObservation => CaptureObservationTogether(t, p, invoked);
      case UpdateLedger(_) => UpdateLedgerTogether(c, t, p, a, invoked);
      case Advance(_, _) => AdvanceTogether(t, p, invoked);
      case AwaitHuman => AwaitHumanTogether(t, p, invoked);
      case HandleFailure(_) => HandleFailureTogether(c, t, p, a, invoked);
      case Finalize(_) => FinalizeTogether(t, p, invoked);
      case LogEnd(_) => LogTogether(t, p, RunEnded, Stopped, invoked);
      case Stopped => NothingTogether(t, p, invoked);
    }
  }

  /** The stale-write branches are dead. */
  lemma NeverStale(t: Tables, p: Proc, invoked: seq<nat>)
    requires Together(t, p, invoked)
    ensures !p.pc.RecordStale? && !p.pc.ReloadStale?
  {}

  lemma LoadLeavesTables(t: Tables, p: Proc)
    ensures p.pc.LoadState? ==> LoadStateStep(t, p).tables == t
    ensures p.pc.LoadStep? ==> LoadStepStep(t, p).tables == t
  {}

  lemma ApplyDecisionLeavesTables(c: Config, t: Tables, p: Proc, a: Answer)
    ensures ApplyDecisionStep(c, t, p, a).tables == t
  {
    hide Apply.ApplyPatch;
  }

  lemma RunToolLeavesTables(t: Tables, p: Proc, a: Answer)
    requires p.pc.RunTool?
    ensures RunToolStep(t, p, a).tables == t
  {}

  lemma LogTogether(t: Tables, p: Proc, kind: EventKind, pc: Pc, invoked: seq<nat>)
    requires Together(t, p, invoked) && ((p.pc.LogResume? && pc.Dispatch?) || pc.Stopped?)
    ensures Together(Log(t, p.step, kind), p.(pc := pc), invoked)
  {
    Untouched(t, Log(t, p.step, kind), invoked);
    hide InOrder;
  }

  lemma NothingTogether(t: Tables, p: Proc, invoked: seq<nat>)
    requires Together(t, p, invoked) && p.pc.Stopped?
    ensures Together(t, p.(pc := Stopped), invoked)
  {
    hide InOrder;
  }
}
