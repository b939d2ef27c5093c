/** The ledger of a tool over every run of one process at a time. */
module LedgerRuns {
  import opened Domain
  import opened State
  import opened Tables
  import opened Lifecycle
  import opened LoopGuard
  import opened Versions
  import opened Runs
  import opened Solo
  import opened SoloRuns
  import opened Ledger
  import opened LedgerProofs
  import opened LedgerFrame
  import Apply
  import Bounds
  import Endings
  import History
  import Rows
  import VersionSteps

  // ---- where decisions and reports come from ----

  predicate DecisionLeaves(d: Option<Decision>, tool: string) {
    d.Some? ==> Leaves(d.value.patch, tool)
  }

  predicate RowsLeave(t: Tables, tool: string) {
    forall k <- t.steps :: DecisionLeaves(t.steps[k].decision, tool)
  }

  predicate ReportFits(r: Option<ToolReturn>, cap: nat) {
    r.Some? ==> |ReportedKeys(r.value.facts)| <= cap
  }

  /** Nothing the process holds edits the ledger of the tool, and what it is about to report is within the cap. */
  predicate ProcLeaves(c: Config, p: Proc, tool: string) {
    && DecisionLeaves(p.decision, tool) && (p.row.Some? ==> DecisionLeaves(p.row.value.decision, tool))
    && ReportFits(p.tool, c.ledgerCap)
  }

  /** What the outside world answers: replies that leave the ledger of the tool alone and reports within the cap. */
  predicate Polite(c: Config, a: Answer, tool: string) {
    DecisionLeaves(a.decision, tool) && |ReportedKeys(a.facts)| <= c.ledgerCap
  }

  /** Decisions and rows after a step are those of before, the reply, or none; a report is the tool's answer or
      empty. */
  predicate Carries(t: Tables, p: Proc, a: Answer, m: Moved) {
    && (m.proc.decision in {p.decision, a.decision, None} || (p.row.Some? && m.proc.decision == p.row.value.decision))
    && (m.proc.row == p.row || (m.proc.row.Some? && m.proc.row.value in t.steps.Values))
    && (m.proc.tool in {p.tool, None} || (m.proc.tool.Some? && m.proc.tool.value.facts in {[], a.facts}))
    && (forall k <- m.tables.steps ::
          || m.tables.steps[k].decision in {None, a.decision}
          || (k in t.steps && m.tables.steps[k].decision == t.steps[k].decision))
  }

  lemma DecidingCarries(c: Config, t: Tables, p: Proc, a: Answer)
    ensures p.pc.BuildContext? ==> Carries(t, p, a, BuildContextStep(t, p))
    ensures p.pc.Reason? ==> Carries(t, p, a, ReasonStep(t, p, a))
    ensures p.pc.ApplyDecision? ==> Carries(t, p, a, ApplyDecisionStep(c, t, p, a))
    ensures Carries(t, p, a, RecordStaleStep(t, p)) && Carries(t, p, a, ReloadStaleStep(t, p))
    ensures Carries(t, p, a, RecordRejectionStep(t, p))
  {
    hide WithEvent, Apply.ApplyPatch;
  }

  lemma CommitCarries(t: Tables, p: Proc, a: Answer)
    requires p.pc.Commit?
    ensures Carries(t, p, a, CommitStep(t, p))
  {
    hide WithEvent, WithItems;
  }

  lemma RequestCarries(c: Config, t: Tables, p: Proc, a: Answer)
    ensures Carries(t, p, a, RequestActionStep(c, t, p, a))
  {
    hide WithEvent, Trips, Remembered;
  }

  lemma ToolCarries(t: Tables, p: Proc, a: Answer)
    ensures Carries(t, p, a, ExecuteActionStep(t, p))
    ensures p.pc.RunTool? ==> Carries(t, p, a, RunToolStep(t, p, a))
    ensures Carries(t, p, a, CaptureObservationStep(t, p))
    ensures Carries(t, p, a, AwaitHumanStep(t, p))
  {
    hide WithEvent, ClosedEvent, LastEvent;
  }

  lemma FailureCarries(c: Config, t: Tables, p: Proc, a: Answer)
    ensures p.pc.HandleFailure? ==> Carries(t, p, a, HandleFailureStep(c, t, p, a))
    ensures p.pc.Finalize? ==> Carries(t, p, a, FinalizeStep(t, p))
    ensures Carries(t, p, a, Go(Log(t, p.step, RunEnded), p, Stopped)) && Carries(t, p, a, Go(t, p, Stopped))
  {
    hide WithEvent;
  }

  lemma NextStepCarries(t0: Tables, t: Tables, p: Proc, a: Answer, obs: Observation)
    requires t.steps == MarkPhase(t0, p.step, Closed).steps
    ensures Carries(t0, p, a, NextStep(t0, t, p, obs))
  {
    hide WithEvent;
  }

  lemma ClosingCarries(t: Tables, p: Proc, a: Answer)
    ensures p.pc.Advance? ==> Carries(t, p, a, AdvanceStep(t, p))
    ensures p.pc.RetrieveMemory? ==> Carries(t, p, a, RetrieveMemoryStep(t, p))
  {
    hide NextStep, WithEvent;
    if p.pc.Advance? {
      var obs := Observation(|t.observations|, p.pc.kind, p.pc.content);
      NextStepCarries(t, MarkPhase(SaveObservation(Log(t, p.step + 1, ObservationEvent), obs.kind, obs.content),
                                   p.step, Closed), p, a, obs);
    } else if p.pc.RetrieveMemory? && p.obs.Some? && p.decision.Some? && p.decision.value.control.Query? {
      var p1 := p.(exec := Count1(p.exec, (k: Counters) => k.(retrievals := k.retrievals + 1)));
      NextStepCarries(t, MarkPhase(Log(t, p.step, MemoryRetrieval), p.step, Closed), p1, a, p.obs.value);
    }
  }

  lemma ResumeCarries(t: Tables, p: Proc, a: Answer)
    ensures p.pc.LoadState? ==> Carries(t, p, a, LoadStateStep(t, p))
    ensures p.pc.LoadStep? ==> Carries(t, p, a, LoadStepStep(t, p))
    ensures p.pc.Dispatch? ==> Carries(t, p, a, DispatchStep(t, p))
    ensures forall human :: Carries(t, p, a, Go(Log(t, p.step, RunResumed), p, Dispatch(human)))
  {
    hide WithEvent;
  }

  lemma EnterCarries(t: Tables, p: Proc, a: Answer)
    ensures Carries(t, p, a, EnterStep(t, p))
  {
    hide WithEvent, FindOpenExec;
  }

  lemma LedgerCarries(c: Config, t: Tables, p: Proc, a: Answer)
    requires p.pc.UpdateLedger? && Ordered(p, a)
    ensures Carries(t, p, a, UpdateLedgerStep(c, t, p, a))
  {
    hide Apply.ApplyPatch, UpdateLedgerStep, LedgerPatch, WithEvent;
    VersionSteps.UpdateLedgerShape(c, t, p, a);
  }

  lemma MicroCarries(c: Config, t: Tables, p: Proc, a: Answer)
    requires Ordered(p, a)
    ensures Carries(t, p, a, Micro(c, t, p, a))
  {
    hide Carries, LoadStateStep, LoadStepStep, BuildContextStep, ReasonStep, ApplyDecisionStep, CommitStep,
      RecordRejectionStep,
      RequestActionStep, RetrieveMemoryStep, ExecuteActionStep, RunToolStep, CaptureObservationStep, UpdateLedgerStep,
      AdvanceStep, AwaitHumanStep, HandleFailureStep, FinalizeStep, DispatchStep, EnterStep, RecordStaleStep,
          ReloadStaleStep, Log;
    match p.pc {
      case Commit(_, _) => CommitCarries(t, p, a);
      case RequestAction => RequestCarries(c, t, p, a);
      case ExecuteAction | RunTool(_) | CaptureObservation | AwaitHuman => ToolCarries(t, p, a);
      case HandleFailure(_) | Finalize(_) | LogEnd(_) | Stopped => FailureCarries(c, t, p, a);
      case Advance(_, _) | RetrieveMemory => ClosingCarries(t, p, a);
      case LoadState(_) | LoadStep(_) | LogResume(_) | Dispatch(_) => ResumeCarries(t, p, a);
      case Enter => EnterCarries(t, p, a);
      case UpdateLedger(_) => LedgerCarries(c, t, p, a);
      case _ => DecidingCarries(c, t, p, a);
    }
  }

  lemma CarriedLeaves(c: Config, t: Tables, p: Proc, a: Answer, m: Moved, tool: string)
    requires Carries(t, p, a, m) && RowsLeave(t, tool) && ProcLeaves(c, p, tool) && Polite(c, a, tool)
    ensures RowsLeave(m.tables, tool) && ProcLeaves(c, m.proc, tool)
  {
    hide Leaves;
    forall k | k in m.tables.steps ensures DecisionLeaves(m.tables.steps[k].decision, tool) {
      if k in t.steps {
        assert DecisionLeaves(t.steps[k].decision, tool);
      }
    }
    if m.proc.row != p.row {
      var k :| k in t.steps && t.steps[k] == m.proc.row.value;
      assert DecisionLeaves(t.steps[k].decision, tool);
    }
    assert ReportedKeys([]) == {};
  }

  // ---- at most one report per step ----

  /** The process will have something to report in this step. */
  predicate HasReport(p: Proc) {
    || p.pc.RunTool?
    || ((p.pc.CaptureObservation? || p.pc.UpdateLedger?) && p.tool.Some? && p.tool.value.facts != [])
  }

  ghost predicate CanReport(t: Tables, p: Proc) {
    Solo.Latest(t) in t.steps && (!t.steps[Solo.Latest(t)].phase.ActionDispatched? || HasReport(p))
  }

  lemma NewReport(c: Config, t: Tables, p: Proc, a: Answer)
    requires Ordered(p, a) && (p.pc.Enter? || p.pc.CaptureObservation?) && HasReport(Micro(c, t, p, a).proc)
    ensures HasReport(p)
  {
    hide Interrupt, FindOpenExec, CloseExec, ClosedEvent, LastEvent;
  }

  /** Once the report of a step is made or lost, the step cannot make another one. */
  lemma ReportsOnce(c: Config, t: Tables, p: Proc, a: Answer, invoked: seq<nat>)
    requires TablesOk(c, t) && ProcOk(c, t, p) && Together(t, p, invoked) && Ordered(p, a)
    ensures var m := Micro(c, t, p, a);
      && (Solo.Latest(m.tables) == Solo.Latest(t) || Solo.Latest(m.tables) == Solo.Latest(t) + 1)
      && (Solo.Latest(m.tables) == Solo.Latest(t) && CanReport(m.tables, m.proc) ==> CanReport(t, p))
  {
    hide Micro, TablesOk, ProcOk, ExecFacts, InvokedOnce;
    Rows.MicroMarks(c, t, p, a);
    Bounds.MicroIsEdge(c, t, p, a);
    var m := Micro(c, t, p, a);
    if HasReport(m.proc) && (p.pc.Enter? || p.pc.CaptureObservation?) {
      NewReport(c, t, p, a);
    }
  }

  // ---- the trace of a ledger ----

  /** The ledger after each report that was committed, and the reports. */
  datatype Trace = Trace(ledgers: seq<Dict>, batches: seq<Batch>)

  /** The label makes a process commit a report to the ledger of the tool. */
  predicate Writes(c: Config, s: System, l: Label, tool: string) {
    && l.Step? && l.pid in s.procs && Ordered(s.procs[l.pid], l.answer) && Reports(s.procs[l.pid], tool)
    && Do(c, s, l, true).t.current != s.t.current
  }

  function BatchOf(p: Proc): Batch
    requires p.pc.UpdateLedger?
  {
    Batch(if p.tool.Some? then p.tool.value.facts else [], p.pc.event, p.step)
  }

  function TraceOf(c: Config, s: System, labels: seq<Label>, tool: string): Trace {
    if labels == [] then Trace([Entries(s.t.current.domain, tool)], [])
    else
      var n := |labels| - 1;
      var (before, mid) := (TraceOf(c, s, labels[..n], tool), Run(c, s, labels[..n], true));
      if Writes(c, mid, labels[n], tool) then
        Trace(before.ledgers + [Entries(Do(c, mid, labels[n], true).t.current.domain, tool)],
              before.batches + [BatchOf(mid.procs[labels[n].pid])])
      else before
  }

  // ---- the invariant ----

  predicate StepsBelow(batches: seq<Batch>, n: nat) {
    forall b <- batches :: b.step < n
  }

  /** The ledgers are a run of ledger updates at growing steps, and the last of them is in the domain. */
  ghost predicate TraceOk(c: Config, domain: Dict, tr: Trace, tool: string) {
    && LedgerShaped(domain, tool)
    && LedgerRun(tr.ledgers, tr.batches, c.ledgerCap) && Increasing(tr.batches) && OlderThan(tr.ledgers[0], 0)
    && tr.ledgers[|tr.batches|] == Entries(domain, tool)
  }

  /** The reports are older than the next one can be. */
  ghost predicate Timely(s: System, batches: seq<Batch>) {
    && StepsBelow(batches, Solo.Latest(s.t) + 1)
    && (forall pid <- s.procs :: CanReport(s.t, s.procs[pid]) ==> StepsBelow(batches, Solo.Latest(s.t)))
    && (Solo.Latest(s.t) in s.t.steps && !s.t.steps[Solo.Latest(s.t)].phase.ActionDispatched?
        ==> StepsBelow(batches, Solo.Latest(s.t)))
  }

  ghost predicate AllLeave(c: Config, s: System, tool: string) {
    RowsLeave(s.t, tool) && forall pid <- s.procs :: ProcLeaves(c, s.procs[pid], tool)
  }

  lemma SameLedger(c: Config, d: Dict, e: Dict, tr: Trace, tool: string)
    requires TraceOk(c, d, tr, tool) && SameUnder(d, e, tool)
    ensures TraceOk(c, e, tr, tool)
  {}

  lemma QuietStepKeepsTrace(c: Config, t: Tables, p: Proc, a: Answer, tr: Trace, tool: string)
    requires TablesOk(c, t) && ProcOk(c, t, p) && Ordered(p, a) && TraceOk(c, t.current.domain, tr, tool)
    requires ProcLeaves(c, p, tool)
    requires Reports(p, tool) ==> Micro(c, t, p, a).tables.current == t.current
    ensures TraceOk(c, Micro(c, t, p, a).tables.current.domain, tr, tool)
  {
    hide Micro, TablesOk, ProcOk, TraceOk, Leaves, Reports, ReportFits;
    Endings.TidyParts(c, t, p);
    Endings.MicroShape(c, t, p, a);
    var m := Micro(c, t, p, a);
    if m.tables.current != t.current {
      if p.pc.LoadState? || p.pc.ReloadStale? {
        LoadsCommitNothing(c, t, p, a);
      } else {
        MicroKeepsCopy(c, t, p, a, tool);
        SameLedger(c, t.current.domain, m.tables.current.domain, tr, tool);
      }
    }
  }

  lemma LoadsCommitNothing(c: Config, t: Tables, p: Proc, a: Answer)
    requires p.pc.LoadState? || p.pc.ReloadStale?
    ensures Micro(c, t, p, a).tables == t
  {}

  /** What has been reported before is older than the step. */
  lemma TraceIsOlder(c: Config, domain: Dict, tr: Trace, tool: string, n: nat)
    requires TraceOk(c, domain, tr, tool) && StepsBelow(tr.batches, n)
    ensures OlderThan(Entries(domain, tool), n)
  {
    LedgerRefinesLastWrites(tr.ledgers, tr.batches, c.ledgerCap, |tr.batches|);
    assert |tr.batches| > 0 ==> tr.batches[|tr.batches|-1] in tr.batches;
    hide StepOf, LedgerRun, Follows;
  }

  lemma TraceFurther(c: Config, d: Dict, e: Dict, tr: Trace, tool: string, b: Batch)
    requires TraceOk(c, d, tr, tool) && StepsBelow(tr.batches, b.step) && |ReportedKeys(b.facts)| <= c.ledgerCap
    requires Follows(Entries(d, tool), Entries(e, tool), b, c.ledgerCap) && LedgerShaped(e, tool)
    ensures TraceOk(c, e, Trace(tr.ledgers + [Entries(e, tool)], tr.batches + [b]), tool)
  {
    hide Follows, ReportedKeys, Entries, LedgerShaped, OlderThan;
    var ledgers, batches := tr.ledgers + [Entries(e, tool)], tr.batches + [b];
    forall i | 0 <= i < |batches| ensures Follows(ledgers[i], ledgers[i+1], batches[i], c.ledgerCap) {
      if i < |tr.batches| {
        assert Follows(tr.ledgers[i], tr.ledgers[i+1], tr.batches[i], c.ledgerCap);
      }
    }
    forall i, j | 0 <= i < j < |batches| ensures batches[i].step < batches[j].step {
      assert tr.batches[i] in tr.batches;
    }
  }

  /** A committed report prolongs the trace. */
  lemma WritingStepExtendsTrace(c: Config, t: Tables, p: Proc, a: Answer, tr: Trace, tool: string)
    requires TablesOk(c, t) && ProcOk(c, t, p) && Ordered(p, a) && TraceOk(c, t.current.domain, tr, tool)
    requires ProcLeaves(c, p, tool) && Reports(p, tool) && Micro(c, t, p, a).tables.current != t.current
    requires HasReport(p) ==> StepsBelow(tr.batches, p.step)
    ensures var d := Micro(c, t, p, a).tables.current.domain;
      HasReport(p) && TraceOk(c, d, Trace(tr.ledgers + [Entries(d, tool)], tr.batches + [BatchOf(p)]), tool)
  {
    hide Micro, TablesOk, ProcOk, TraceOk, Leaves, Follows, StepsBelow, ReportedKeys, Enumerates, StepOf;
    Endings.TidyParts(c, t, p);
    Endings.MicroShape(c, t, p, a);
    var m := Micro(c, t, p, a);
    WritesSomething(c, t, p, a);
    TraceIsOlder(c, t.current.domain, tr, tool, p.step);
    TraceShaped(c, t.current.domain, tr, tool);
    History.LedgerCommitFollows(c, t, p, a);
    TraceFurther(c, t.current.domain, m.tables.current.domain, tr, tool, BatchOf(p));
  }

  lemma TraceShaped(c: Config, domain: Dict, tr: Trace, tool: string)
    requires TraceOk(c, domain, tr, tool)
    ensures LedgerShaped(domain, tool)
  {}

  lemma WritesSomething(c: Config, t: Tables, p: Proc, a: Answer)
    requires p.pc.UpdateLedger? && Ordered(p, a) && Micro(c, t, p, a).tables.current != t.current
    ensures HasReport(p) && Micro(c, t, p, a) == UpdateLedgerStep(c, t, p, a)
    ensures UpdateLedgerStep(c, t, p, a).tables != t
  {
    hide Apply.ApplyPatch, LedgerPatch, LedgerReadable, PairList, Raises, CommitState, WithEvent;
  }

  // ---- whole runs ----

  ghost predicate LedgerOk(c: Config, s: System, tr: Trace, tool: string) {
    SystemOk(c, s) && OneProcess(s) && AllLeave(c, s, tool) && TraceOk(c, s.t.current.domain, tr, tool)
        && Timely(s, tr.batches)
  }

  /** The trace after one more label. */
  function TraceAfter(c: Config, s: System, l: Label, tr: Trace, tool: string): Trace {
    if Writes(c, s, l, tool) then
      Trace(tr.ledgers + [Entries(Do(c, s, l, true).t.current.domain, tool)], tr.batches + [BatchOf(s.procs[l.pid])])
    else tr
  }

  lemma SystemParts(c: Config, s: System, pid: nat)
    requires SystemOk(c, s) && OneProcess(s) && pid in s.procs
    ensures TablesOk(c, s.t) && ProcOk(c, s.t, s.procs[pid]) && Together(s.t, s.procs[pid], s.invoked)
    ensures s.procs.Keys == {pid}
  {
    hide TablesOk, ProcOk, Together, InOrder;
  }

  /** The part of the invariant that speaks of one process. */
  lemma StepIsTimely(c: Config, t: Tables, p: Proc, a: Answer, invoked: seq<nat>, batches: seq<Batch>)
    requires TablesOk(c, t) && ProcOk(c, t, p) && Together(t, p, invoked) && Ordered(p, a)
    requires StepsBelow(batches, Solo.Latest(t) + 1) && (CanReport(t, p) ==> StepsBelow(batches, Solo.Latest(t)))
    ensures var m := Micro(c, t, p, a); var n := Solo.Latest(m.tables);
      && StepsBelow(batches, n + 1) && (CanReport(m.tables, m.proc) ==> StepsBelow(batches, n))
      && (n in m.tables.steps && !m.tables.steps[n].phase.ActionDispatched? ==> StepsBelow(batches, n))
  {
    ReportsOnce(c, t, p, a, invoked);
    hide Micro, TablesOk, ProcOk, Together;
  }

  lemma WritingIsTimely(c: Config, t: Tables, p: Proc, a: Answer, invoked: seq<nat>, batches: seq<Batch>)
    requires Together(t, p, invoked) && Ordered(p, a) && p.pc.UpdateLedger?
    requires StepsBelow(batches, Solo.Latest(t)) && Micro(c, t, p, a).tables.current != t.current
    requires TablesOk(c, t) && ProcOk(c, t, p)
    ensures var m := Micro(c, t, p, a); var n := Solo.Latest(m.tables);
      && StepsBelow(batches + [BatchOf(p)], n + 1) && !CanReport(m.tables, m.proc)
      && n in m.tables.steps && m.tables.steps[n].phase.ActionDispatched?
  {
    hide Micro, UpdateLedgerStep, TablesOk, ProcOk, Together;
    Rows.MicroMarks(c, t, p, a);
    WritesSomething(c, t, p, a);
    LedgerStepGoesOn(c, t, p, a);
    LedgerRow(t, p, invoked);
  }

  lemma LedgerRow(t: Tables, p: Proc, invoked: seq<nat>)
    requires Together(t, p, invoked) && p.pc.UpdateLedger?
    ensures p.step == Solo.Latest(t) && p.step in t.steps && t.steps[p.step].phase.ActionDispatched?
  {}

  lemma LedgerStepGoesOn(c: Config, t: Tables, p: Proc, a: Answer)
    requires p.pc.UpdateLedger? && Ordered(p, a)
    ensures var m := UpdateLedgerStep(c, t, p, a); m.proc.pc.Advance? || m.proc.pc.Stopped?
  {
    hide Apply.ApplyPatch, LedgerPatch, LedgerReadable, PairList, Raises, CommitState, WithEvent;
  }

  lemma StepKeepsTrace(c: Config, s: System, pid: nat, a: Answer, tr: Trace, tool: string)
    requires LedgerOk(c, s, tr, tool) && Polite(c, a, tool)
    ensures LedgerOk(c, Do(c, s, Step(pid, a), true), TraceAfter(c, s, Step(pid, a), tr, tool), tool)
  {
    hide Apply.ApplyPatch, Micro, Ordered, TablesOk, ProcOk, Together, InOrder, TraceOk, ProcLeaves, RowsLeave, Polite,
      CanReport,
      StepsBelow, Reports, Entries;
    StepKeeps(c, s, pid, a, true);
    StepStaysAlone(c, s, pid, a);
    if pid in s.procs && Ordered(s.procs[pid], a) {
      var p := s.procs[pid];
      var m := Micro(c, s.t, p, a);
      SystemParts(c, s, pid);
      MicroCarries(c, s.t, p, a);
      CarriedLeaves(c, s.t, p, a, m, tool);
      StepIsTimely(c, s.t, p, a, s.invoked, tr.batches);
      if Writes(c, s, Step(pid, a), tool) {
        ReportsPc(p, tool);
        AtLatest(s.t, p, s.invoked);
        ReportIsPossible(s.t, p);
        WritingStepExtendsTrace(c, s.t, p, a, tr, tool);
        WritingIsTimely(c, s.t, p, a, s.invoked, tr.batches);
      } else {
        QuietStepKeepsTrace(c, s.t, p, a, tr, tool);
      }
    }
  }

  lemma ReportsPc(p: Proc, tool: string)
    requires Reports(p, tool)
    ensures p.pc.UpdateLedger?
  {}

  lemma ReportIsPossible(t: Tables, p: Proc)
    requires Solo.Latest(t) in t.steps
    ensures HasReport(p) ==> CanReport(t, p)
  {}

  lemma AtLatest(t: Tables, p: Proc, invoked: seq<nat>)
    requires Together(t, p, invoked) && !p.pc.Stopped? && !Unread(p.pc)
    ensures p.step == Solo.Latest(t) && Solo.Latest(t) in t.steps
  {}

  lemma FreshReportsNothing(t: Tables, s: State, human: Option<string>, limit: nat, c: Config, tool: string)
    ensures var p := NewProc(LoadState(human), s, None, limit);
      ProcLeaves(c, p, tool) && (CanReport(t, p)
                                 ==> Solo.Latest(t) in t.steps && !t.steps[Solo.Latest(t)].phase.ActionDispatched?)
  {}

  /** Labels whose answers leave the ledger of the tool to the runtime and report within the cap. */
  predicate PoliteLabel(c: Config, l: Label, tool: string) {
    l.Step? ==> Polite(c, l.answer, tool)
  }

  lemma CrashKeepsTrace(c: Config, s: System, pid: nat, tr: Trace, tool: string)
    requires LedgerOk(c, s, tr, tool)
    ensures LedgerOk(c, s.(procs := s.procs - {pid}), tr, tool)
  {
    hide Apply.ApplyPatch, TablesOk, ProcOk, Together, InOrder, TraceOk, ProcLeaves, RowsLeave, CanReport, StepsBelow;
  }

  lemma ResumeKeepsTrace(c: Config, s: System, pid: nat, human: Option<string>, limit: nat, tr: Trace, tool: string)
    requires LedgerOk(c, s, tr, tool)
    ensures LedgerOk(c, Do(c, s, Resume(pid, human, limit), true), tr, tool)
  {
    hide Apply.ApplyPatch, SystemOk, OneProcess, TraceOk, ProcLeaves, RowsLeave, CanReport, StepsBelow, NewProc;
    ResumeKeeps(c, s, pid, human, limit, true);
    ResumeStaysAlone(c, s, pid, human, limit);
    FreshReportsNothing(s.t, s.t.current, human, limit, c, tool);
  }

  lemma DoKeepsTrace(c: Config, s: System, l: Label, tr: Trace, tool: string)
    requires LedgerOk(c, s, tr, tool) && PoliteLabel(c, l, tool)
    ensures LedgerOk(c, Do(c, s, l, true), TraceAfter(c, s, l, tr, tool), tool)
  {
    hide LedgerOk, Micro, Ordered, Reports;
    match l
    case Step(pid, a) => StepKeepsTrace(c, s, pid, a, tr, tool);
    case CrashOf(pid) => CrashKeepsTrace(c, s, pid, tr, tool);
    case Resume(pid, human, limit) => ResumeKeepsTrace(c, s, pid, human, limit, tr, tool);
  }

  lemma {:induction false} RunKeepsTrace(c: Config, s: System, labels: seq<Label>, tool: string)
    requires LedgerOk(c, s, Trace([Entries(s.t.current.domain, tool)], []), tool)
    requires forall l <- labels :: PoliteLabel(c, l, tool)
    ensures LedgerOk(c, Run(c, s, labels, true), TraceOf(c, s, labels, tool), tool)
    decreases |labels|
  {
    hide LedgerOk, Do, Writes, PoliteLabel, Entries;
    if labels != [] {
      var n := |labels| - 1;
      assert labels[n] in labels && forall l <- labels[..n] :: l in labels;
      RunKeepsTrace(c, s, labels[..n], tool);
      DoKeepsTrace(c, Run(c, s, labels[..n], true), labels[n], TraceOf(c, s, labels[..n], tool), tool);
    }
  }

  lemma StartTrace(c: Config, s: State, input: string, now: int, limit: nat, tool: string)
    requires Blank(s) && Start(c, s, input, now, limit).Some?
    requires var d := Start(c, s, input, now, limit).value.t.current.domain;
      LedgerShaped(d, tool) && OlderThan(Entries(d, tool), 0)
    ensures var r := Start(c, s, input, now, limit).value;
      LedgerOk(c, r, Trace([Entries(r.t.current.domain, tool)], []), tool)
  {
    hide SystemOk, OneProcess, OlderThan, LedgerShaped, Entries;
    StartOk(c, s, input, now, limit);
    StartAlone(c, s, input, now, limit);
    Rows.StartRows(c, s, input, now, limit);
    StartHoldsNothing(c, s, input, now, limit);
    hide Start, Blank;
  }

  lemma StartHoldsNothing(c: Config, s: State, input: string, now: int, limit: nat)
    requires Start(c, s, input, now, limit).Some?
    ensures var r := Start(c, s, input, now, limit).value;
      forall pid <- r.procs :: r.procs[pid].decision.None? && r.procs[pid].row.None? && r.procs[pid].tool.None?
  {
    hide CreatedTables, Seeded;
  }

  /** Over every run of one process at a time, with any crashes and resumes, in which replies leave the ledger of a
      tool to the runtime and reports stay within the cap, the versions of that ledger are a run of ledger updates at
      strictly growing steps, the current one being the last. */
  lemma LedgerVersionsAreARun(c: Config, s: State, input: string, now: int, limit: nat, labels: seq<Label>,
                              tool: string)
    requires Blank(s) && Start(c, s, input, now, limit).Some? && forall l <- labels :: PoliteLabel(c, l, tool)
    requires var d := Start(c, s, input, now, limit).value.t.current.domain;
      LedgerShaped(d, tool) && OlderThan(Entries(d, tool), 0)
    ensures var s0 := Start(c, s, input, now, limit).value;
      var (tr, d) := (TraceOf(c, s0, labels, tool), Run(c, s0, labels, true).t.current.domain);
      && LedgerRun(tr.ledgers, tr.batches, c.ledgerCap) && Increasing(tr.batches)
      && tr.ledgers[0] == Entries(s0.t.current.domain, tool) && tr.ledgers[|tr.batches|] == Entries(d, tool)
  {
    hide Start, Blank, Run, PoliteLabel, LedgerRun, Increasing, Entries;
    StartTrace(c, s, input, now, limit, tool);
    RunKeepsTrace(c, Start(c, s, input, now, limit).value, labels, tool);
    TraceStarts(c, Start(c, s, input, now, limit).value, labels, tool);
    hide SystemOk, OneProcess, AllLeave, Timely;
  }

  lemma {:induction false} TraceStarts(c: Config, s: System, labels: seq<Label>, tool: string)
    ensures var tr := TraceOf(c, s, labels, tool);
      |tr.ledgers| > 0 && tr.ledgers[0] == Entries(s.t.current.domain, tool)
    decreases |labels|
  {
    hide Do, Writes, Entries;
    if labels != [] {
      TraceStarts(c, s, labels[..|labels|-1], tool);
    }
  }

  /** At the end of every such run the ledger agrees with the last write per key on what it holds, holds nothing
      older than what it lacks, and is within the cap once it has been written. */
  lemma LedgerAgreesAfterEveryRun(c: Config, s: State, input: string, now: int, limit: nat, labels: seq<Label>,
                                  tool: string)
    requires Blank(s) && Start(c, s, input, now, limit).Some? && forall l <- labels :: PoliteLabel(c, l, tool)
    requires var d := Start(c, s, input, now, limit).value.t.current.domain;
      LedgerShaped(d, tool) && OlderThan(Entries(d, tool), 0)
    ensures var s0 := Start(c, s, input, now, limit).value;
      var (ledger, batches) :=
          (Entries(Run(c, s0, labels, true).t.current.domain, tool), TraceOf(c, s0, labels, tool).batches);
      && Refines(ledger, LastWrites(Entries(s0.t.current.domain, tool), batches))
      && (batches != [] ==> |ledger| <= c.ledgerCap)
  {
    hide Start, Blank, Run, PoliteLabel, LedgerRun, Increasing, Entries, Refines, LastWrites, TraceOf, OlderThan;
    LedgerVersionsAreARun(c, s, input, now, limit, labels, tool);
    var s0 := Start(c, s, input, now, limit).value;
    var tr := TraceOf(c, s0, labels, tool);
    LedgerRefinesLastWrites(tr.ledgers, tr.batches, c.ledgerCap, |tr.batches|);
    assert tr.batches[..|tr.batches|] == tr.batches;
  }
}
