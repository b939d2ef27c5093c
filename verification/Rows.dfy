/** The step rows under any number of processes: the latest one is never closed, and who can reopen an earlier one. */
module Rows {
  import opened Domain
  import opened State
  import opened Tables
  import opened Lifecycle
  import opened LoopGuard
  import opened Versions
  import opened Runs
  import Apply
  import ApplyFrame
  import Bounds
  import VersionSteps

  // ---- the latest row is open ----

  ghost predicate LatestOpen(t: Tables) {
    t.current.counters.steps in t.steps && !t.steps[t.current.counters.steps].phase.Closed?
  }

  /** A row that a resume has loaded is not closed, and once it is to be re-entered it waits for nobody. */
  predicate RowLoaded(p: Proc) {
    && (p.pc.LogResume? || p.pc.Dispatch? || p.pc.Enter? ==> p.row.Some? && !p.row.value.phase.Closed?)
    && (p.pc.Enter? ==> !p.row.value.phase.AwaitingHuman?)
  }

  ghost predicate RowsOk(c: Config, s: System) {
    SystemOk(c, s) && LatestOpen(s.t) && forall pid <- s.procs :: RowLoaded(s.procs[pid])
  }

  // ---- what a step does to the rows ----

  /** The phase a step of the process writes to its own row, in whatever order others commit. */
  function MarkOf(p: Proc, a: Answer): Option<Phase> {
    match p.pc
    case BuildContext =>
      if p.steps < p.maxSteps && p.exec.counters.steps < p.exec.maxSteps
          && p.obs.Some? then Some(ContextBuilt) else None
    case Reason => if a.decision.Some? then Some(DecisionRecorded) else None
    case RequestAction =>
      if p.decision.Some? && p.decision.value.control.Act? && p.obs.Some? then Some(ActionPending) else None
    case ExecuteAction => if CallsTool(p) then Some(ActionDispatched) else None
    case AwaitHuman => Some(AwaitingHuman)
    case HandleFailure(_) => Some(StepFailed)
    case _ => None
  }

  predicate SameCounter(t: Tables, u: Tables) {
    u.current.counters.steps == t.current.counters.steps
  }

  /** Only the row of one step may differ, and it is in the given phase. */
  predicate Marked(t: Tables, u: Tables, step: nat, phase: Phase) {
    && SameCounter(t, u) && u.steps.Keys == t.steps.Keys
    && (forall k <- t.steps :: k != step ==> u.steps[k] == t.steps[k])
    && (step in t.steps ==> u.steps[step].phase == phase)
  }

  /** The step is closed and the next one opened. */
  predicate Closes(t: Tables, step: nat, u: Tables) {
    && u.current.counters.steps == t.current.counters.steps + 1
    && u.steps.Keys == t.steps.Keys + {step + 1} && u.steps[step + 1].phase.ObservationReady?
    && (forall k <- t.steps :: k != step && k != step + 1 ==> u.steps[k] == t.steps[k])
    && (step in t.steps ==> u.steps[step].phase.Closed?)
  }

  predicate RowMove(t: Tables, p: Proc, a: Answer, u: Tables) {
    match MarkOf(p, a)
    case Some(phase) => Marked(t, u, p.step, phase)
    case None =>
      || (SameCounter(t, u) && u.steps == t.steps)
      || (p.pc.Commit? && p.exec.version == t.current.version && Marked(t, u, p.step, StateCommitted))
      || ((p.pc.Advance? || p.pc.RetrieveMemory?) && p.exec.version == t.current.version && Closes(t, p.step, u))
  }

  lemma MarkingSteps(c: Config, t: Tables, p: Proc, a: Answer)
    ensures p.pc.BuildContext? ==> RowMove(t, p, a, BuildContextStep(t, p).tables)
    ensures p.pc.ExecuteAction? ==> RowMove(t, p, a, ExecuteActionStep(t, p).tables)
    ensures p.pc.AwaitHuman? ==> RowMove(t, p, a, AwaitHumanStep(t, p).tables)
    ensures p.pc.HandleFailure? ==> RowMove(t, p, a, HandleFailureStep(c, t, p, a).tables)
  {
    hide WithEvent;
  }

  lemma ReasonMarks(t: Tables, p: Proc, a: Answer)
    requires p.pc.Reason?
    ensures RowMove(t, p, a, ReasonStep(t, p, a).tables)
  {
    hide WithEvent;
  }

  lemma RequestActionMarks(c: Config, t: Tables, p: Proc, a: Answer)
    requires p.pc.RequestAction?
    ensures RowMove(t, p, a, RequestActionStep(c, t, p, a).tables)
  {
    hide WithEvent, Trips, Remembered;
  }

  lemma UnmarkingSteps(t: Tables, p: Proc, a: Answer)
    ensures p.pc.RecordStale? ==> RowMove(t, p, a, RecordStaleStep(t, p).tables)
    ensures p.pc.RecordRejection? ==> RowMove(t, p, a, RecordRejectionStep(t, p).tables)
    ensures p.pc.CaptureObservation? ==> RowMove(t, p, a, CaptureObservationStep(t, p).tables)
    ensures p.pc.Enter? ==> RowMove(t, p, a, EnterStep(t, p).tables)
  {
    hide WithEvent, FindOpenExec, LastEvent;
  }

  lemma LoadMarks(c: Config, t: Tables, p: Proc, a: Answer)
    requires p.pc.LoadState? || p.pc.LoadStep? || p.pc.ReloadStale? || p.pc.ApplyDecision? || p.pc.RunTool?
      || p.pc.LogResume?
             || p.pc.LogEnd? || p.pc.Stopped?
    requires Ordered(p, a)
    ensures RowMove(t, p, a, Micro(c, t, p, a).tables)
  {
    hide Apply.ApplyPatch, WithEvent;
  }

  lemma CommitMarks(c: Config, t: Tables, p: Proc, a: Answer)
    requires ProcOk(c, t, p) && Numbered(t) && p.pc.Commit?
    ensures RowMove(t, p, a, CommitStep(t, p).tables)
  {
    hide Apply.ApplyPatch, WithItems, WithEvent;
    var known, now :| ProposedBy(c, t, p, known, now);
    VersionSteps.DecidedFacts(c, t, p, known, now);
    hide ProposedBy;
  }

  lemma DispatchMarks(t: Tables, p: Proc, a: Answer)
    requires Anchored(t, p.exec, p.pc, p.step) && Numbered(t) && p.pc.Dispatch?
    ensures RowMove(t, p, a, DispatchStep(t, p).tables)
  {
    hide WithEvent, Anchored, Numbered;
    CurrentCounter(t, p);
  }

  lemma FinalizeMarks(t: Tables, p: Proc, a: Answer)
    requires Anchored(t, p.exec, p.pc, p.step) && Numbered(t) && p.pc.Finalize?
    ensures RowMove(t, p, a, FinalizeStep(t, p).tables)
  {
    hide Anchored, Numbered;
    CurrentCounter(t, p);
  }

  lemma UpdateLedgerMarks(c: Config, t: Tables, p: Proc, a: Answer)
    requires Anchored(t, p.exec, p.pc, p.step) && Numbered(t) && p.pc.UpdateLedger? && Ordered(p, a)
    ensures RowMove(t, p, a, UpdateLedgerStep(c, t, p, a).tables)
  {
    hide Apply.ApplyPatch, UpdateLedgerStep, LedgerPatch, WithEvent;
    VersionSteps.UpdateLedgerShape(c, t, p, a);
    var m := UpdateLedgerStep(c, t, p, a);
    if m != Crash(t, p) && m != Go(t, p, Advance(ToolOutput, p.tool.value.content)) {
      var patch := LedgerPatch(c, p, p.decision.value.control.action.tool, p.tool.value.facts, a.order);
      ApplyFrame.PatchFrame(p.exec, patch, None, c.policy, a.now);
    }
  }

  lemma NextStepCloses(t0: Tables, t: Tables, p: Proc, obs: Observation)
    requires t.current == t0.current && t.steps == MarkPhase(t0, p.step, Closed).steps
    requires p.exec.version == t0.current.version ==> p.exec.counters.steps == t0.current.counters.steps
    ensures var u := NextStep(t0, t, p, obs).tables;
      u == t0 || (p.exec.version == t0.current.version && Closes(t0, p.step, u))
  {
    hide WithEvent;
  }

  lemma AdvanceMarks(t: Tables, p: Proc, a: Answer)
    requires Anchored(t, p.exec, p.pc, p.step) && Numbered(t) && p.pc.Advance?
    ensures RowMove(t, p, a, AdvanceStep(t, p).tables)
  {
    hide NextStep, MarkPhase, SaveObservation, Log, Anchored, Closes;
    var obs := Observation(|t.observations|, p.pc.kind, p.pc.content);
    var u := SaveObservation(Log(t, p.step + 1, ObservationEvent), obs.kind, obs.content);
    ObservationKeepsRows(t, p.step + 1, obs);
    ClosesAlike(t, u, p.step);
    CurrentCounter(t, p);
    NextStepCloses(t, MarkPhase(u, p.step, Closed), p, obs);
  }

  lemma ClosesAlike(t: Tables, u: Tables, step: nat)
    requires u.current == t.current && u.steps == t.steps
    ensures MarkPhase(u, step, Closed).steps == MarkPhase(t, step, Closed).steps
    ensures MarkPhase(u, step, Closed).current == t.current
  {}

  lemma CurrentCounter(t: Tables, p: Proc)
    requires Anchored(t, p.exec, p.pc, p.step) && Numbered(t)
    ensures p.exec.version == t.current.version ==> p.exec.counters.steps == t.current.counters.steps
  {}

  lemma ObservationKeepsRows(t: Tables, step: nat, obs: Observation)
    ensures var u := SaveObservation(Log(t, step, ObservationEvent), obs.kind, obs.content);
      u.current == t.current && u.steps == t.steps
  {
    hide WithEvent;
  }


  lemma RetrieveMemoryMarks(t: Tables, p: Proc, a: Answer)
    requires Anchored(t, p.exec, p.pc, p.step) && Numbered(t) && p.pc.RetrieveMemory?
    ensures RowMove(t, p, a, RetrieveMemoryStep(t, p).tables)
  {
    hide NextStep, WithEvent;
    if !(p.obs.None? || p.decision.None? || !p.decision.value.control.Query?) {
      var p1 := p.(exec := Count1(p.exec, (k: Counters) => k.(retrievals := k.retrievals + 1)));
      NextStepCloses(t, MarkPhase(Log(t, p.step, MemoryRetrieval), p.step, Closed), p1, p.obs.value);
    }
  }

  lemma MicroMarks(c: Config, t: Tables, p: Proc, a: Answer)
    requires TablesOk(c, t) && ProcOk(c, t, p) && Ordered(p, a)
    ensures RowMove(t, p, a, Micro(c, t, p, a).tables)
  {
    hide RowMove, TablesOk, ProcOk, LoadStateStep, LoadStepStep, BuildContextStep, ReasonStep, ApplyDecisionStep,
      CommitStep,
      RecordRejectionStep, RequestActionStep, RetrieveMemoryStep, ExecuteActionStep, RunToolStep,
          CaptureObservationStep,
      UpdateLedgerStep, AdvanceStep, AwaitHumanStep, HandleFailureStep, FinalizeStep, DispatchStep, EnterStep,
      RecordStaleStep, ReloadStaleStep, Log;
    Parts(c, t, p);
    match p.pc {
      case BuildContext => MarkingSteps(c, t, p, a);
      case ExecuteAction => MarkingSteps(c, t, p, a);
      case AwaitHuman => MarkingSteps(c, t, p, a);
      case HandleFailure(_) => MarkingSteps(c, t, p, a);
      case Reason => ReasonMarks(t, p, a);
      case RequestAction => RequestActionMarks(c, t, p, a);
      case RecordStale => UnmarkingSteps(t, p, a);
      case RecordRejection => UnmarkingSteps(t, p, a);
      case CaptureObservation => UnmarkingSteps(t, p, a);
      case Enter => UnmarkingSteps(t, p, a);
      case Commit(_, _) => CommitMarks(c, t, p, a);
      case Dispatch(_) => DispatchMarks(t, p, a);
      case Finalize(_) => FinalizeMarks(t, p, a);
      case UpdateLedger(_) => UpdateLedgerMarks(c, t, p, a);
      case Advance(_, _) => AdvanceMarks(t, p, a);
      case RetrieveMemory => RetrieveMemoryMarks(t, p, a);
      case _ => LoadMarks(c, t, p, a);
    }
  }

  lemma Parts(c: Config, t: Tables, p: Proc)
    requires TablesOk(c, t) && ProcOk(c, t, p)
    ensures Numbered(t) && StepsOk(t) && Anchored(t, p.exec, p.pc, p.step)
  {
    hide Apply.ApplyPatch, Link;
  }

  // ---- the latest row stays open ----

  lemma MoveKeepsOpen(t: Tables, p: Proc, a: Answer, u: Tables)
    requires LatestOpen(t) && RowMove(t, p, a, u)
    requires p.exec.version == t.current.version && !Unplaced(p.pc) ==> p.step == t.current.counters.steps
    ensures LatestOpen(u)
  {}

  lemma LoadsOpenRow(c: Config, t: Tables, p: Proc, a: Answer)
    requires StepsOk(t) && LatestOpen(t) && RowLoaded(p) && Ordered(p, a)
    requires p.pc.LoadStep? || p.pc.LogResume? || p.pc.Dispatch?
    ensures RowLoaded(Micro(c, t, p, a).proc)
  {
    hide CommitState, WithEvent;
  }

  lemma MicroKeepsOpen(c: Config, t: Tables, p: Proc, a: Answer)
    requires TablesOk(c, t) && ProcOk(c, t, p) && Ordered(p, a) && LatestOpen(t) && RowLoaded(p)
    ensures var m := Micro(c, t, p, a); LatestOpen(m.tables) && RowLoaded(m.proc)
  {
    hide Micro, TablesOk, ProcOk, LatestOpen, RowMove;
    Parts(c, t, p);
    MicroMarks(c, t, p, a);
    MoveKeepsOpen(t, p, a, Micro(c, t, p, a).tables);
    Bounds.MicroIsEdge(c, t, p, a);
    if p.pc.LoadStep? || p.pc.LogResume? || p.pc.Dispatch? {
      LoadsOpenRow(c, t, p, a);
    }
  }

  lemma DoKeepsOpen(c: Config, s: System, l: Label, solo: bool)
    requires RowsOk(c, s)
    ensures RowsOk(c, Do(c, s, l, solo))
  {
    hide Apply.ApplyPatch, TablesOk, ProcOk, Micro, Ordered, LatestOpen, RowLoaded;
    DoKeeps(c, s, l, solo);
    if l.Step? && l.pid in s.procs && Ordered(s.procs[l.pid], l.answer) {
      MicroKeepsOpen(c, s.t, s.procs[l.pid], l.answer);
    } else if l.Resume? {
      FreshIsLoaded(s.t.current, l.human, l.limit);
    }
  }

  lemma FreshIsLoaded(s: State, human: Option<string>, limit: nat)
    ensures RowLoaded(NewProc(LoadState(human), s, None, limit))
  {}

  lemma {:induction false} RunKeepsOpen(c: Config, s: System, labels: seq<Label>, solo: bool)
    requires RowsOk(c, s)
    ensures RowsOk(c, Run(c, s, labels, solo))
    decreases |labels|
  {
    hide RowsOk, Do;
    if labels != [] {
      RunKeepsOpen(c, s, labels[..|labels|-1], solo);
      DoKeepsOpen(c, Run(c, s, labels[..|labels|-1], solo), labels[|labels|-1], solo);
    }
  }

  lemma StartIsOpen(c: Config, s: State, input: string, now: int, limit: nat)
    requires Blank(s) && Start(c, s, input, now, limit).Some?
    ensures var r := Start(c, s, input, now, limit).value; RowsOk(c, r) && BelowClosed(r.t)
  {
    hide Apply.ApplyPatch, TablesOk, ProcOk, CreatedTables, Seeded;
    StartOk(c, s, input, now, limit);
    StartRows(c, s, input, now, limit);
  }

  lemma StartRows(c: Config, s: State, input: string, now: int, limit: nat)
    requires Blank(s) && Start(c, s, input, now, limit).Some?
    ensures var r := Start(c, s, input, now, limit).value;
      && r.t.current.counters.steps == 0 && r.t.steps == map[0 := StepRow(ObservationReady, 0, None, None, None)]
      && forall pid <- r.procs :: r.procs[pid].pc.BuildContext?
  {
    hide Apply.ApplyPatch, Linked, PatchesMatch;
    CreatedOk(c, s, input);
    SeededOk(c, s, CreatedTables(s, input), now);
    hide CreatedTables, Seeded;
  }

  /** After any run of any number of processes the latest step row is not closed, and no process that re-enters a
      step finds it closed or waiting for a human: those two branches of the re-entry are dead. */
  lemma ClosedIsNeverReentered(c: Config, s: State, input: string, now: int, limit: nat, labels: seq<Label>, solo: bool)
    requires Blank(s) && Start(c, s, input, now, limit).Some?
    ensures var r := Run(c, Start(c, s, input, now, limit).value, labels, solo);
      && LatestOpen(r.t)
      && forall pid <- r.procs :: r.procs[pid].pc.Enter? ==>
           r.procs[pid].row.Some? && !r.procs[pid].row.value.phase.Closed?
               && !r.procs[pid].row.value.phase.AwaitingHuman?
  {
    StartIsOpen(c, s, input, now, limit);
    hide Start, Blank, SystemOk, LatestOpen, Run;
    RunKeepsOpen(c, Start(c, s, input, now, limit).value, labels, solo);
  }

  // ---- the rows below ----

  /** Every row below the latest is closed. */
  predicate BelowClosed(t: Tables) {
    forall k <- t.steps :: k < t.current.counters.steps ==> t.steps[k].phase.Closed?
  }

  /** A process that is behind writes its phase to its row without asking whether the step is over. */
  predicate Reopens(t: Tables, p: Proc, a: Answer) {
    p.step < t.current.counters.steps && MarkOf(p, a).Some?
  }

  lemma MoveClosedIff(t: Tables, p: Proc, a: Answer, u: Tables)
    requires StepsOk(t) && RowMove(t, p, a, u)
    requires p.exec.version == t.current.version && !Unplaced(p.pc) ==> p.step == t.current.counters.steps
    ensures BelowClosed(u) <==> BelowClosed(t) && !Reopens(t, p, a)
  {
    if Reopens(t, p, a) {
      assert p.step in t.steps && p.step in u.steps;
    } else if !BelowClosed(t) {
      var k :| k in t.steps && k < t.current.counters.steps && !t.steps[k].phase.Closed?;
      assert k in u.steps;
    }
  }

  /** The rows below the latest stay closed over a step exactly if it does not reopen one; and a reopened row is
      never closed again. */
  lemma StepClosedIff(c: Config, t: Tables, p: Proc, a: Answer)
    requires TablesOk(c, t) && ProcOk(c, t, p) && Ordered(p, a)
    ensures BelowClosed(Micro(c, t, p, a).tables) <==> BelowClosed(t) && !Reopens(t, p, a)
  {
    hide Micro, TablesOk, ProcOk, RowMove, BelowClosed, Reopens;
    Parts(c, t, p);
    MicroMarks(c, t, p, a);
    MoveClosedIff(t, p, a, Micro(c, t, p, a).tables);
  }

  predicate ReopensBy(s: System, l: Label) {
    l.Step? && l.pid in s.procs && Ordered(s.procs[l.pid], l.answer) && Reopens(s.t, s.procs[l.pid], l.answer)
  }

  predicate NothingReopens(c: Config, s: System, labels: seq<Label>, solo: bool) {
    forall i :: 0 <= i < |labels| ==> !ReopensBy(Run(c, s, labels[..i], solo), labels[i])
  }

  lemma PrefixReopens(c: Config, s: System, labels: seq<Label>, solo: bool)
    requires labels != []
    ensures var n := |labels| - 1;
      NothingReopens(c, s, labels, solo) <==>
      NothingReopens(c, s, labels[..n], solo) && !ReopensBy(Run(c, s, labels[..n], solo), labels[n])
  {
    hide Run, ReopensBy;
    var n := |labels| - 1;
    assert forall i :: 0 <= i < n ==> labels[..n][..i] == labels[..i];
    if NothingReopens(c, s, labels[..n], solo) && !ReopensBy(Run(c, s, labels[..n], solo), labels[n]) {
      forall i | 0 <= i < |labels| ensures !ReopensBy(Run(c, s, labels[..i], solo), labels[i]) {
        if i < n {
          assert labels[..n][..i] == labels[..i] && labels[..n][i] == labels[i];
        }
      }
    }
  }

  lemma DoClosedIff(c: Config, s: System, l: Label, solo: bool)
    requires SystemOk(c, s)
    ensures BelowClosed(Do(c, s, l, solo).t) <==> BelowClosed(s.t) && !ReopensBy(s, l)
  {
    hide Apply.ApplyPatch, TablesOk, ProcOk, Micro, Ordered, BelowClosed, Reopens;
    if l.Step? && l.pid in s.procs && Ordered(s.procs[l.pid], l.answer) {
      StepClosedIff(c, s.t, s.procs[l.pid], l.answer);
    }
  }

  /** Under any number of processes all rows below the latest are closed at the end of a run exactly if they were at its
      beginning and no label of the run reopens one. */
  lemma {:induction false} RowsClosedIff(c: Config, s: System, labels: seq<Label>, solo: bool)
    requires SystemOk(c, s)
    ensures BelowClosed(Run(c, s, labels, solo).t) <==> BelowClosed(s.t) && NothingReopens(c, s, labels, solo)
    decreases |labels|
  {
    hide SystemOk, Do, BelowClosed, ReopensBy;
    if labels != [] {
      var n := |labels| - 1;
      RowsClosedIff(c, s, labels[..n], solo);
      RunKeeps(c, s, labels[..n], solo);
      PrefixReopens(c, s, labels, solo);
      DoClosedIff(c, Run(c, s, labels[..n], solo), labels[n], solo);
      hide NothingReopens;
    }
  }
}
