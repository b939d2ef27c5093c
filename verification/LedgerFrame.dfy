/** Patches and steps that leave the ledger of a tool alone. */
module LedgerFrame {
  import opened Domain
  import opened State
  import opened Tables
  import opened Lifecycle
  import opened LoopGuard
  import opened Versions
  import Apply
  import ApplyFrame
  import ApplyKeeps
  import Ledger
  import LedgerProofs
  import VersionSteps

  /** The two domains hold the same under the name. */
  predicate SameUnder(d: Dict, e: Dict, tool: string) {
    (tool in d <==> tool in e) && (tool in d ==> d[tool] == e[tool])
  }

  predicate OpLeaves(op: Op, tool: string) {
    op.SetPath? || op.AdjustPath? || op.DeletePath? ==> op.path[0] != tool
  }

  /** No operation edits a path below the tool's name. */
  predicate Leaves(patch: Patch, tool: string) {
    forall op <- patch.ops :: OpLeaves(op, tool)
  }

  // ---- patches ----

  lemma EditElsewhere(d: Dict, p: Path, e: LeafEdit, tool: string)
    requires p[0] != tool && Edit(d, p, e).Ok?
    ensures SameUnder(d, Edit(d, p, e).value, tool)
  {}

  lemma OpElsewhere(s: State, op: Op, norm: string -> string, now: int, tool: string)
    requires OpLeaves(op, tool) && Apply.ApplyOp(s, op, norm, now).Done?
    ensures SameUnder(s.domain, Apply.ApplyOp(s, op, norm, now).state.domain, tool)
  {
    if Apply.IsFactOp(op) {
      ApplyFrame.FactOpFrame(s, op, norm);
    } else if Apply.IsHypothesisOp(op) {
      ApplyFrame.HypothesisOpFrame(s, op, now);
    } else if op.SetPath? || op.AdjustPath? || op.DeletePath? {
      EditElsewhere(s.domain, op.path, Apply.EditOf(op), tool);
    } else {
      PlainOpsKeepDomain(s, op, norm, now);
    }
  }

  lemma RecordOpsKeepDomain(s: State, op: Op)
    ensures Apply.IsPlanOp(op) && Apply.PlanOp(s, op).Done? ==> Apply.PlanOp(s, op).state.domain == s.domain
    ensures Apply.IsIssueOp(op) && Apply.IssueOp(s, op).Done? ==> Apply.IssueOp(s, op).state.domain == s.domain
  {
    hide Find, Remove, Replace, Apply.PlanOf, TakenIds;
  }

  lemma SettingOpsKeepDomain(s: State, op: Op)
    ensures Apply.IsTableOp(op) && Apply.TableOp(s, op).Done? ==> Apply.TableOp(s, op).state.domain == s.domain
    ensures Apply.IsScalarOp(op) && Apply.ScalarOp(s, op).Done? ==> Apply.ScalarOp(s, op).state.domain == s.domain
  {
    hide Remove, Transitions;
  }

  lemma PlainOpsKeepDomain(s: State, op: Op, norm: string -> string, now: int)
    requires Apply.IsPlanOp(op) || Apply.IsIssueOp(op) || Apply.IsTableOp(op) || Apply.IsScalarOp(op)
    requires Apply.ApplyOp(s, op, norm, now).Done?
    ensures Apply.ApplyOp(s, op, norm, now).state.domain == s.domain
  {
    hide Apply.FactOp, Apply.HypothesisOp, Apply.EditDomain, Apply.PlanOp, Apply.IssueOp, Apply.TableOp, Apply.ScalarOp;
    RecordOpsKeepDomain(s, op);
    SettingOpsKeepDomain(s, op);
  }

  lemma {:induction false} OpsElsewhere(s: State, ops: seq<Op>, norm: string -> string, now: int, tool: string)
    requires (forall op <- ops :: OpLeaves(op, tool)) && Apply.ApplyOps(s, ops, norm, now).AllDone?
    ensures SameUnder(s.domain, Apply.ApplyOps(s, ops, norm, now).state.domain, tool)
    decreases |ops|
  {
    hide Apply.ApplyOp, OpLeaves;
    if ops != [] {
      var n := |ops| - 1;
      assert ops[n] in ops && forall op <- ops[..n] :: op in ops;
      OpsElsewhere(s, ops[..n], norm, now, tool);
      OpElsewhere(Apply.ApplyOps(s, ops[..n], norm, now).state, ops[n], norm, now, tool);
    }
  }

  lemma PatchElsewhere(s: State, patch: Patch, archive: Option<set<string>>, pol: Apply.Policy, now: int, tool: string)
    requires Leaves(patch, tool) && Apply.ApplyPatch(s, patch, archive, pol, now).Applied?
    ensures SameUnder(s.domain, Apply.ApplyPatch(s, patch, archive, pol, now).state.domain, tool)
  {
    ApplyKeeps.AppliedShape(s, patch, archive, pol, now);
    hide Apply.ApplyPatch, Apply.ApplyOps, Apply.Compact;
    OpsElsewhere(s, patch.ops, pol.norm, now, tool);
    LedgerProofs.CompactLeavesDomain(Apply.ApplyOps(s, patch.ops, pol.norm, now).state, pol.limits);
  }

  // ---- ledger patches of other tools ----

  lemma {:induction false} DeletesLeave(mine: string, slots: seq<Ledger.Slot>, tool: string)
    requires mine != tool
    ensures forall op <- Ledger.DeleteOps(mine, slots) :: OpLeaves(op, tool)
    decreases |slots|
  {
    if slots != [] {
      DeletesLeave(mine, slots[..|slots|-1], tool);
    }
  }

  lemma {:induction false} SetsLeave(mine: string, facts: seq<Ledger.Report>, event: string, step: nat, tool: string)
    requires mine != tool
    ensures forall op <- Ledger.SetOps(mine, facts, event, step) :: OpLeaves(op, tool)
    decreases |facts|
  {
    if facts != [] {
      SetsLeave(mine, facts[..|facts|-1], event, step, tool);
    }
  }

  lemma LedgerPatchLeaves(c: Config, p: Proc, mine: string, facts: seq<Ledger.Report>, order: seq<string>, tool: string)
    requires p.pc.UpdateLedger? && (forall k <- order :: k in Ledger.Entries(p.exec.domain, mine)) && mine != tool
    ensures Leaves(LedgerPatch(c, p, mine, facts, order), tool)
  {
    var slots := Ledger.SlotsOf(Ledger.Entries(p.exec.domain, mine), order);
    DeletesLeave(mine, Ledger.Victims(slots, facts, p.step, c.ledgerCap), tool);
    SetsLeave(mine, facts, p.pc.event, p.step, tool);
  }

  // ---- steps ----

  /** The process is about to report to the ledger of the tool. */
  predicate Reports(p: Proc, tool: string) {
    p.pc.UpdateLedger? && CallsTool(p) && p.decision.value.control.action.tool == tool
  }

  /** The step leaves the ledger in the process's copy of the state alone; only a step that loads replaces the copy. */
  predicate CopyKept(p: Proc, m: Moved, tool: string) {
    SameUnder(p.exec.domain, m.proc.exec.domain, tool)
  }

  lemma CommitKeepsCopy(c: Config, t: Tables, p: Proc, tool: string)
    requires Proposal(c, t, p) && p.pc.Commit? && Leaves(p.decision.value.patch, tool)
    ensures CopyKept(p, CommitStep(t, p), tool)
  {
    hide Apply.ApplyPatch, Leaves, WithItems, WithEvent;
    var known, now :| ProposedBy(c, t, p, known, now);
    PatchElsewhere(p.exec, p.decision.value.patch, Some(known), c.policy, now, tool);
  }

  lemma OtherLedgerKeepsCopy(c: Config, t: Tables, p: Proc, a: Answer, tool: string)
    requires p.pc.UpdateLedger? && Ordered(p, a) && !Reports(p, tool)
    ensures CopyKept(p, UpdateLedgerStep(c, t, p, a), tool)
  {
    hide Apply.ApplyPatch, UpdateLedgerStep, LedgerPatch, Leaves;
    VersionSteps.UpdateLedgerShape(c, t, p, a);
    var m := UpdateLedgerStep(c, t, p, a);
    if m != Crash(t, p) && m != Go(t, p, Advance(ToolOutput, p.tool.value.content)) {
      var mine := p.decision.value.control.action.tool;
      LedgerPatchLeaves(c, p, mine, p.tool.value.facts, a.order, tool);
      PatchElsewhere(p.exec, LedgerPatch(c, p, mine, p.tool.value.facts, a.order), None, c.policy, a.now, tool);
    }
  }

  lemma NodesKeepCopy(c: Config, t: Tables, p: Proc, a: Answer)
    ensures BuildContextStep(t, p).proc.exec == p.exec && ReasonStep(t, p, a).proc.exec == p.exec
    ensures ApplyDecisionStep(c, t, p, a).proc.exec == p.exec
    ensures RecordStaleStep(t, p).proc.exec == p.exec && RecordRejectionStep(t, p).proc.exec == p.exec
    ensures RequestActionStep(c, t, p, a).proc.exec == p.exec
    ensures ExecuteActionStep(t, p).proc.exec == p.exec && AwaitHumanStep(t, p).proc.exec == p.exec
  {
    hide MarkPhase, Log, RecordReply, RecordPatch, SaveRequest, StartExec, Trips, Remembered, Apply.ApplyPatch;
  }

  lemma NextStepKeepsCopy(t0: Tables, t: Tables, p: Proc, obs: Observation)
    ensures NextStep(t0, t, p, obs).proc.exec.domain == p.exec.domain
  {
    hide CommitState, CreateStep;
  }

  lemma ClosingKeepsCopy(t: Tables, p: Proc)
    ensures p.pc.Advance? ==> AdvanceStep(t, p).proc.exec.domain == p.exec.domain
    ensures p.pc.RetrieveMemory? ==> RetrieveMemoryStep(t, p).proc.exec.domain == p.exec.domain
  {
    hide NextStep, MarkPhase, Log, SaveObservation;
    if p.pc.Advance? {
      var obs := Observation(|t.observations|, p.pc.kind, p.pc.content);
      NextStepKeepsCopy(t, MarkPhase(SaveObservation(Log(t, p.step + 1, ObservationEvent), obs.kind, obs.content),
                                     p.step, Closed), p, obs);
    } else if p.pc.RetrieveMemory? && p.obs.Some? && p.decision.Some? && p.decision.value.control.Query? {
      var p1 := p.(exec := Count1(p.exec, (k: Counters) => k.(retrievals := k.retrievals + 1)));
      NextStepKeepsCopy(t, MarkPhase(Log(t, p.step, MemoryRetrieval), p.step, Closed), p1, p.obs.value);
    }
  }

  lemma CountingKeepsCopy(c: Config, t: Tables, p: Proc, a: Answer)
    ensures p.pc.HandleFailure? ==> HandleFailureStep(c, t, p, a).proc.exec.domain == p.exec.domain
    ensures CaptureObservationStep(t, p).proc.exec.domain == p.exec.domain
    ensures p.pc.RunTool? ==> RunToolStep(t, p, a).proc.exec == p.exec
  {
    hide MarkPhase, Log, CloseExec, ClosedEvent, LastEvent;
  }

  lemma ResumingKeepsCopy(t: Tables, p: Proc)
    ensures p.pc.Dispatch? ==> DispatchStep(t, p).proc.exec.domain == p.exec.domain
    ensures p.pc.Finalize? ==> FinalizeStep(t, p).proc.exec.domain == p.exec.domain
    ensures p.pc.LoadStep? ==> LoadStepStep(t, p).proc.exec == p.exec
    ensures EnterStep(t, p).proc.exec == p.exec
  {
    hide CommitState, Log, Interrupt, FindOpenExec, LatestStep;
  }

  lemma CopyIsKept(c: Config, t: Tables, p: Proc, a: Answer)
    requires Ordered(p, a) && !p.pc.LoadState? && !p.pc.ReloadStale? && !p.pc.Commit? && !p.pc.UpdateLedger?
    ensures Micro(c, t, p, a).proc.exec.domain == p.exec.domain
  {
    NodesKeepCopy(c, t, p, a);
    ClosingKeepsCopy(t, p);
    CountingKeepsCopy(c, t, p, a);
    ResumingKeepsCopy(t, p);
    hide LoadStateStep, LoadStepStep, BuildContextStep, ReasonStep, ApplyDecisionStep, CommitStep, RecordRejectionStep,
      RequestActionStep, RetrieveMemoryStep, ExecuteActionStep, RunToolStep, CaptureObservationStep, UpdateLedgerStep,
      AdvanceStep, AwaitHumanStep, HandleFailureStep, FinalizeStep, DispatchStep, EnterStep, RecordStaleStep,
          ReloadStaleStep, Log;
  }

  /** Whatever a process does, unless it loads the state or reports to this very ledger, its copy of the ledger
      stays. */
  lemma MicroKeepsCopy(c: Config, t: Tables, p: Proc, a: Answer, tool: string)
    requires ProcOk(c, t, p) && Ordered(p, a) && !p.pc.LoadState? && !p.pc.ReloadStale? && !Reports(p, tool)
    requires p.decision.Some? ==> Leaves(p.decision.value.patch, tool)
    ensures CopyKept(p, Micro(c, t, p, a), tool)
  {
    hide Apply.ApplyPatch, ProcOk, Leaves, CopyKept, Reports, LoadStateStep, LoadStepStep, BuildContextStep,
      ReasonStep, ApplyDecisionStep, CommitStep,
      RecordRejectionStep, RequestActionStep, RetrieveMemoryStep, ExecuteActionStep, RunToolStep,
          CaptureObservationStep,
      UpdateLedgerStep, AdvanceStep, AwaitHumanStep, HandleFailureStep, FinalizeStep, DispatchStep, EnterStep,
      RecordStaleStep, ReloadStaleStep, Log;
    if p.pc.Commit? {
      CommitParts(c, t, p);
      CommitKeepsCopy(c, t, p, tool);
    } else if p.pc.UpdateLedger? {
      OtherLedgerKeepsCopy(c, t, p, a, tool);
    } else {
      CopyIsKept(c, t, p, a);
      SameCopyKept(p, Micro(c, t, p, a), tool);
    }
  }

  lemma SameCopyKept(p: Proc, m: Moved, tool: string)
    requires m.proc.exec.domain == p.exec.domain
    ensures CopyKept(p, m, tool)
  {}

  lemma CommitParts(c: Config, t: Tables, p: Proc)
    requires ProcOk(c, t, p) && p.pc.Commit?
    ensures Proposal(c, t, p) && p.decision.Some?
  {
    hide Apply.ApplyPatch;
  }
}
