/** Every step of every process keeps the tables and the stepping process in order. */
module VersionSteps {
  import opened Domain
  import opened State
  import opened Tables
  import opened Lifecycle
  import opened LoopGuard
  import opened Versions
  import Apply
  import ApplyFrame
  import Ledger

  ghost predicate Kept(c: Config, t: Tables, m: Moved) {
    TablesOk(c, m.tables) && Grows(t, m.tables) && ProcOk(c, m.tables, m.proc)
  }

  /** A step that commits nothing and leaves the process where it was, counters and program counter aside. */
  predicate Stayed(t: Tables, p: Proc, m: Moved) {
    && Quiet(t, m.tables)
    && SameContent(m.proc.exec, p.exec) && m.proc.step == p.step
    && (Unplaced(p.pc) ==> Unplaced(m.proc.pc)) && !m.proc.pc.Commit?
    && ObsKnown(t, m.proc.obs)
  }

  lemma StayedKeeps(c: Config, t: Tables, p: Proc, m: Moved)
    requires TablesOk(c, t) && ProcOk(c, t, p) && Stayed(t, p, m)
    ensures Kept(c, t, m)
  {
    hide Apply.ApplyPatch, Link;
    QuietKeeps(c, t, m.tables);
  }

  lemma LogThenMark(t: Tables, step: nat, kind: EventKind, phase: Phase)
    requires Tidy(t)
    ensures Quiet(t, MarkPhase(Log(t, step, kind), step, phase))
  {
    AppendQuiet(t, step, kind, None);
    MarkQuiet(Log(t, step, kind), step, phase);
    QuietThen(t, Log(t, step, kind), MarkPhase(Log(t, step, kind), step, phase));
  }

  lemma RequestQuiet(t: Tables, step: nat)
    requires Tidy(t)
    ensures Quiet(t, SaveRequest(t, step))
  {
    AppendQuiet(t, step, ActionRequested, None);
  }

  lemma InterruptQuiet(t: Tables, step: nat)
    requires Tidy(t)
    ensures Quiet(t, Interrupt(t, step))
  {
    AppendQuiet(t, step, ToolInterrupted, None);
  }

  lemma ReplyQuiet(t: Tables, step: nat, reply: Option<Decision>)
    requires Tidy(t)
    ensures Quiet(t, RecordReply(t, step, reply))
  {
    AppendQuiet(t, step, ModelRequest, None);
    var t1 := Log(t, step, ModelRequest);
    var kind := if reply.Some? then ModelResponse else ModelError;
    AppendQuiet(t1, step, kind, None);
    QuietThen(t, t1, Log(t1, step, kind));
    UpdateQuiet(t, Log(t1, step, kind), RecordReply(t, step, reply), step);
  }

  /** Rewriting one row, but not its observation. */
  lemma UpdateQuiet(t: Tables, u: Tables, w: Tables, step: nat)
    requires Quiet(t, u)
    requires w == u.(steps := w.steps)
    requires w.steps == u.steps
      || (step in u.steps && step in w.steps && w.steps == u.steps[step := w.steps[step]]
          && w.steps[step].observation == u.steps[step].observation)
    ensures Quiet(t, w)
  {}

  lemma CloseQuiet(t: Tables, step: nat, r: ToolReturn)
    requires Tidy(t)
    ensures Quiet(t, CloseExec(t, step, r))
  {
    AppendQuiet(t, step, if r.ok then ToolFinished else ToolFailed, None);
  }

  lemma SameQuiet(t: Tables)
    requires Tidy(t)
    ensures Quiet(t, t)
  {}

  lemma RejectionQuiet(t: Tables, step: nat, patch: Patch)
    requires Tidy(t)
    ensures Quiet(t, Log(RecordPatch(t, step, patch, None), step, PatchRejected))
  {
    AppendQuiet(RecordPatch(t, step, patch, None), step, PatchRejected, None);
  }

  // ---- steps that commit nothing ----

  lemma BuildContextStays(t: Tables, p: Proc)
    requires Tidy(t) && ObsKnown(t, p.obs) && p.pc.BuildContext?
    ensures Stayed(t, p, BuildContextStep(t, p))
  {
    SameQuiet(t);
    LogThenMark(t, p.step, ContextBuiltEvent, ContextBuilt);
    hide MarkPhase, Log, Quiet;
  }

  lemma ReasonStays(t: Tables, p: Proc, a: Answer)
    requires Tidy(t) && ObsKnown(t, p.obs) && p.pc.Reason?
    ensures Stayed(t, p, ReasonStep(t, p, a))
  {
    ReplyQuiet(t, p.step, a.decision);
    hide RecordReply, Quiet;
  }

  lemma RejectionsStay(t: Tables, p: Proc)
    requires Tidy(t) && ObsKnown(t, p.obs) && !Unplaced(p.pc)
    ensures Stayed(t, p, RecordStaleStep(t, p)) && Stayed(t, p, RecordRejectionStep(t, p))
  {
    SameQuiet(t);
    if p.decision.Some? {
      RejectionQuiet(t, p.step, p.decision.value.patch);
    }
    hide Quiet, Log, RecordPatch;
  }

  lemma RequestActionStays(c: Config, t: Tables, p: Proc, a: Answer)
    requires Tidy(t) && ObsKnown(t, p.obs) && p.pc.RequestAction?
    ensures Stayed(t, p, RequestActionStep(c, t, p, a))
  {
    SameQuiet(t);
    RequestQuiet(t, p.step);
    hide SaveRequest, Trips, Remembered, Quiet;
  }

  lemma ExecuteActionStays(t: Tables, p: Proc)
    requires Tidy(t) && ObsKnown(t, p.obs) && p.pc.ExecuteAction?
    ensures Stayed(t, p, ExecuteActionStep(t, p))
  {
    SameQuiet(t);
    LogThenMark(StartExec(t, p.step), p.step, ToolStarted, ActionDispatched);
    hide MarkPhase, Log, Quiet;
  }

  lemma CaptureObservationStays(t: Tables, p: Proc)
    requires Tidy(t) && ObsKnown(t, p.obs) && p.pc.CaptureObservation?
    ensures Stayed(t, p, CaptureObservationStep(t, p))
  {
    SameQuiet(t);
    if p.tool.Some? {
      CloseQuiet(t, p.step, p.tool.value);
    }
    hide CloseExec, Quiet;
  }

  lemma AwaitHumanStays(t: Tables, p: Proc)
    requires Tidy(t) && ObsKnown(t, p.obs) && p.pc.AwaitHuman?
    ensures Stayed(t, p, AwaitHumanStep(t, p))
  {
    SameQuiet(t);
    LogThenMark(t, p.step, HumanRequest, AwaitingHuman);
    hide MarkPhase, Log, Quiet;
  }

  lemma HandleFailureStays(c: Config, t: Tables, p: Proc, a: Answer)
    requires Tidy(t) && ObsKnown(t, p.obs) && p.pc.HandleFailure?
    ensures Stayed(t, p, HandleFailureStep(c, t, p, a))
  {
    SameQuiet(t);
    LogThenMark(t, p.step, ErrorEvent, StepFailed);
    hide MarkPhase, Log, Quiet;
  }

  lemma EnterStays(t: Tables, p: Proc)
    requires Tidy(t) && ObsKnown(t, p.obs) && p.pc.Enter?
    ensures Stayed(t, p, EnterStep(t, p))
  {
    hide Interrupt, FindOpenExec, Quiet, EventsOk, EnterAtStep;
    if p.row.Some? && p.row.value.observation < |t.observations| {
      EnterAtStays(t, p, t.observations[p.row.value.observation], p.row.value);
    } else {
      SameQuiet(t);
    }
  }

  lemma EnterAtStays(t: Tables, p: Proc, obs: Observation, row: StepRow)
    requires Tidy(t) && obs.id < |t.observations| && p.pc.Enter?
    ensures Stayed(t, p, EnterAtStep(t, BeginStep(p, p.step, obs), row))
  {
    hide Interrupt, FindOpenExec, Quiet, Tidy;
    SameQuiet(t);
    InterruptQuiet(t, p.step);
  }

  lemma LogStays(t: Tables, p: Proc, kind: EventKind, pc: Pc)
    requires Tidy(t) && ObsKnown(t, p.obs) && !pc.Commit? && (Unplaced(p.pc) ==> Unplaced(pc))
    ensures Stayed(t, p, Go(Log(t, p.step, kind), p, pc))
  {
    AppendQuiet(t, p.step, kind, None);
  }

  lemma RunToolStays(t: Tables, p: Proc, a: Answer)
    requires Tidy(t) && ObsKnown(t, p.obs) && p.pc.RunTool?
    ensures Stayed(t, p, RunToolStep(t, p, a))
  {}

  // ---- steps that propose or load ----

  lemma ApplyDecisionKeeps(c: Config, t: Tables, p: Proc, a: Answer)
    requires TablesOk(c, t) && ProcOk(c, t, p) && p.pc.ApplyDecision?
    ensures Kept(c, t, ApplyDecisionStep(c, t, p, a))
  {
    hide Apply.ApplyPatch, ApplyDecisionStep, TablesOk, ProposedBy, Stayed;
    ApplyDecisionProposes(c, t, p, a);
    var m := ApplyDecisionStep(c, t, p, a);
    if m.proc.pc.Commit? {
      assert ProposedBy(c, t, m.proc, EventIds(t.events), a.now);
      GrowsSame(t);
    } else {
      TablesTidy(c, t);
      RefusedStays(t, p, m);
      StayedKeeps(c, t, p, m);
    }
  }

  lemma ApplyDecisionProposes(c: Config, t: Tables, p: Proc, a: Answer)
    requires p.pc.ApplyDecision?
    ensures var m := ApplyDecisionStep(c, t, p, a);
      && m.tables == t && m.proc == p.(pc := m.proc.pc)
      && (m.proc.pc.Commit? ==> p.decision.Some? && ProposedBy(c, t, m.proc, EventIds(t.events), a.now))
      && (!m.proc.pc.Commit? ==> m.proc.pc.Stopped? || m.proc.pc.RecordRejection?)
  {
    hide Apply.ApplyPatch;
  }

  lemma RefusedStays(t: Tables, p: Proc, m: Moved)
    requires Tidy(t) && ObsKnown(t, p.obs) && !Unplaced(p.pc)
    requires m.tables == t && m.proc == p.(pc := m.proc.pc) && (m.proc.pc.Stopped? || m.proc.pc.RecordRejection?)
    ensures Stayed(t, p, m)
  {
    SameQuiet(t);
    hide Quiet;
  }

  lemma LoadKeeps(c: Config, t: Tables, p: Proc)
    requires TablesOk(c, t) && ProcOk(c, t, p)
    ensures p.pc.LoadState? ==> Kept(c, t, LoadStateStep(t, p))
    ensures Kept(c, t, ReloadStaleStep(t, p))
    ensures p.pc.LoadStep? ==> Kept(c, t, LoadStepStep(t, p))
  {
    hide Apply.ApplyPatch, Link;
    assert 0 in t.steps && t.current.counters.steps in t.steps && t.current.version in t.versions;
  }

  // ---- commits ----

  lemma KeptThenQuiet(c: Config, t: Tables, m: Moved, w: Tables)
    requires Kept(c, t, m) && Quiet(m.tables, w)
    ensures Kept(c, t, Moved(w, m.proc))
  {
    hide Apply.ApplyPatch, Link;
    QuietKeeps(c, m.tables, w);
    ProcStays(c, m.tables, w, m.proc);
    GrowsThen(t, m.tables, w);
  }

  /** The process that has just committed `s` on its step. */
  predicate Committed(t: Tables, p: Proc, s: State, p': Proc) {
    && p'.exec == s && p'.step == p.step && !p'.pc.Commit? && (Unplaced(p.pc) ==> Unplaced(p'.pc))
    && ObsKnown(t, p'.obs)
  }

  lemma AtCurrent(c: Config, t: Tables, p: Proc)
    requires Numbered(t) && p.exec == t.current && !p.pc.Commit? && ObsKnown(t, p.obs)
    requires Unplaced(p.pc) || p.step == p.exec.counters.steps
    ensures ProcOk(c, t, p)
  {
    hide Apply.ApplyPatch;
    assert t.current.version in t.versions;
  }

  lemma PlainTables(c: Config, t: Tables, s: State, step: nat)
    requires TablesOk(c, t) && Bookkeeping(t.current, s) && s.counters.steps == t.current.counters.steps
    ensures TablesOk(c, WithVersion(t, s, None, step)) && Grows(t, WithVersion(t, s, None, step))
  {
    hide Apply.ApplyPatch, Link;
    PlainVersion(c, t, s, step);
    hide Linked, PatchesMatch;
  }

  lemma PlainCommitKeeps(c: Config, t: Tables, p: Proc, s: State, u: Tables, p': Proc)
    requires TablesOk(c, t) && Anchored(t, p.exec, p.pc, p.step)
    requires CommitState(t, s, p.exec.version, None, p.step) == Wrote(u)
    requires Bookkeeping(p.exec, s) && s.counters.steps == p.exec.counters.steps && Committed(t, p, s, p')
    ensures Kept(c, t, Moved(u, p'))
  {
    hide Apply.ApplyPatch, Link, PatchesMatch, StepsOk;
    assert Bookkeeping(t.current, s);
    PlainTables(c, t, s, p.step);
    AtCurrent(c, u, p');
  }

  lemma FinalizeKeeps(c: Config, t: Tables, p: Proc)
    requires TablesOk(c, t) && ProcOk(c, t, p) && p.pc.Finalize?
    ensures Kept(c, t, FinalizeStep(t, p))
  {
    hide Apply.ApplyPatch, Link;
    var m := FinalizeStep(t, p);
    if m.tables == t {
      SameQuiet(t);
      StayedKeeps(c, t, p, m);
    } else {
      PlainCommitKeeps(c, t, p, p.exec.(status := p.pc.status, version := p.exec.version + 1), m.tables, m.proc);
    }
  }

  lemma DispatchKeeps(c: Config, t: Tables, p: Proc)
    requires TablesOk(c, t) && ProcOk(c, t, p) && p.pc.Dispatch?
    ensures Kept(c, t, DispatchStep(t, p))
  {
    hide Apply.ApplyPatch, Link, TablesOk, Kept, Quiet;
    var m := DispatchStep(t, p);
    assert Tidy(t) by { TablesTidy(c, t); }
    SameQuiet(t);
    if m.tables == t {
      StayedKeeps(c, t, p, m);
    } else {
      var u := CommitState(t, Resumed(p.exec), p.exec.version, None, p.step).tables;
      PlainCommitKeeps(c, t, p, Resumed(p.exec), u, m.proc);
      if m.tables != u {
        TablesTidy(c, u) by { KeptTables(c, t, Moved(u, m.proc)); }
        AppendQuiet(u, p.step, HumanResponse, None);
        KeptThenQuiet(c, t, Moved(u, m.proc), m.tables);
      }
    }
  }

  lemma TablesTidy(c: Config, t: Tables)
    requires TablesOk(c, t)
    ensures Tidy(t)
  {
    hide Apply.ApplyPatch, Link;
  }

  lemma KeptTables(c: Config, t: Tables, m: Moved)
    requires Kept(c, t, m)
    ensures TablesOk(c, m.tables)
  {
    hide Apply.ApplyPatch, TablesOk;
  }

  // ---- the next step ----

  /** The tables with one more version and the next row open. */
  function WithRow(t: Tables, s: State, step: nat, obs: nat): Tables {
    var u := WithVersion(t, s, None, step);
    u.(steps := u.steps[step + 1 := StepRow(ObservationReady, obs, None, None, None)])
  }

  lemma PlainPatches(t: Tables, u: Tables, s: State, step: nat)
    requires PatchesMatch(t) && u.patches == t.patches && s.version !in t.versions
    requires u.versions == t.versions[s.version := VersionRow(step, None, s)]
    ensures PatchesMatch(u)
  {}

  lemma RowOpened(t: Tables, s: State, step: nat, obs: nat)
    requires StepsOk(t) && step == t.current.counters.steps && s.counters.steps == step + 1 && obs < |t.observations|
    ensures StepsOk(WithRow(t, s, step, obs))
  {}

  /** The step counter moves and the next row opens, in one transaction. */
  lemma NextRow(c: Config, t: Tables, s: State, step: nat, obs: nat)
    requires TablesOk(c, t) && Bookkeeping(t.current, s)
    requires step == t.current.counters.steps && s.counters.steps == step + 1 && obs < |t.observations|
    ensures TablesOk(c, WithRow(t, s, step, obs)) && Grows(t, WithRow(t, s, step, obs))
  {
    hide Apply.ApplyPatch;
    var w := WithRow(t, s, step, obs);
    RowOpened(t, s, step, obs);
    VersionAppended(c, t, w, s, None, step);
    PlainPatches(t, w, s, step);
    hide Linked, StepsOk, PatchesMatch;
  }

  lemma NextStepShape(t0: Tables, t: Tables, p: Proc, obs: Observation)
    ensures var m := NextStep(t0, t, p, obs);
      || m == Crash(t0, p)
      || (&& p.exec.version == t.current.version && p.step + 1 !in t.steps
          && m == Go(WithRow(t, NextState(p.exec), p.step, obs.id),
                     BeginStep(p.(exec := NextState(p.exec)), p.step + 1, obs), BuildContext))
  {}

  lemma NextStepKeeps(c: Config, t0: Tables, t: Tables, p: Proc, obs: Observation)
    requires TablesOk(c, t0) && Quiet(t0, t)
    requires Anchored(t0, p.exec, p.pc, p.step) && !Unplaced(p.pc) && ObsKnown(t0, p.obs)
    requires obs.id < |t.observations|
    ensures Kept(c, t0, NextStep(t0, t, p, obs))
  {
    hide Apply.ApplyPatch, Link, NextStep, Linked, PatchesMatch, StepsOk;
    NextStepShape(t0, t, p, obs);
    QuietKeeps(c, t0, t);
    var m := NextStep(t0, t, p, obs);
    if m == Crash(t0, p) {
      SameQuiet(t0);
      GrowsSame(t0);
    } else {
      NextRow(c, t, NextState(p.exec), p.step, obs.id);
      GrowsThen(t0, t, m.tables);
      AtCurrent(c, m.tables, m.proc);
    }
  }

  lemma GrowsSame(t: Tables)
    ensures Grows(t, t)
  {}

  /** The tables at the end of a step with the new observation. */
  function ObservedAndClosed(t: Tables, step: nat, obs: Observation): (u: Tables)
    requires Tidy(t) && obs.id == |t.observations|
    ensures Quiet(t, u) && obs.id < |u.observations|
  {
    var t1 := Log(t, step + 1, ObservationEvent);
    AppendQuiet(t, step + 1, ObservationEvent, None);
    var t2 := SaveObservation(t1, obs.kind, obs.content);
    ObservationQuiet(t1, obs.kind, obs.content);
    QuietThen(t, t1, t2);
    MarkQuiet(t2, step, Closed);
    QuietThen(t, t2, MarkPhase(t2, step, Closed));
    MarkPhase(t2, step, Closed)
  }

  lemma AdvanceKeeps(c: Config, t: Tables, p: Proc)
    requires TablesOk(c, t) && ProcOk(c, t, p) && p.pc.Advance?
    ensures Kept(c, t, AdvanceStep(t, p))
  {
    hide Apply.ApplyPatch, Link, NextStep, Kept, TablesOk, StepsOk;
    TablesTidy(c, t);
    var obs := Observation(|t.observations|, p.pc.kind, p.pc.content);
    NextStepKeeps(c, t, ObservedAndClosed(t, p.step, obs), p, obs);
  }

  lemma RetrieveMemoryKeeps(c: Config, t: Tables, p: Proc)
    requires TablesOk(c, t) && ProcOk(c, t, p) && p.pc.RetrieveMemory?
    ensures Kept(c, t, RetrieveMemoryStep(t, p))
  {
    hide Apply.ApplyPatch, Link, NextStep;
    if p.obs.None? || p.decision.None? || !p.decision.value.control.Query? {
      SameQuiet(t);
      StayedKeeps(c, t, p, Crash(t, p));
    } else {
      LogThenMark(t, p.step, MemoryRetrieval, Closed);
      var p1 := p.(exec := Count1(p.exec, (k: Counters) => k.(retrievals := k.retrievals + 1)));
      NextStepKeeps(c, t, MarkPhase(Log(t, p.step, MemoryRetrieval), p.step, Closed), p1, p.obs.value);
    }
  }

  // ---- committing patches ----

  /** Everything that one commit transaction writes beside the version and the patch record. */
  function BesidesCommit(t: Tables, step: nat, archived: seq<Archived>, patchId: nat): Tables {
    UpdateStep(Log(Log(ArchiveItems(t, step, archived), step, PatchApplied), step, StateCommittedEvent), step,
               (r: StepRow) => r.(phase := StateCommitted, patchId := Some(patchId)))
  }

  /** The tables with one more version and the patch record it comes from. */
  function PatchCommitted(t: Tables, patch: Patch, s: State, step: nat): Tables {
    WithVersion(RecordPatch(t, step, patch, Some(s.version)), s, Some(|t.patches|), step)
  }

  lemma CommitStepShape(t: Tables, p: Proc)
    requires p.pc.Commit? && p.decision.Some?
    ensures var s, patch, m := p.pc.target, p.decision.value.patch, CommitStep(t, p);
      || m == Go(t, p, RecordStale) || m == Crash(t, p)
      || (&& p.exec.version == t.current.version && s.version == t.current.version + 1
          && m.tables == PatchCommitted(BesidesCommit(t, p.step, p.pc.archived, |t.patches|), patch, s, p.step)
          && Committed(t, p, s, m.proc.(obs := None)) && m.proc.obs == p.obs)
  {}

  lemma BesidesQuiet(t: Tables, step: nat, archived: seq<Archived>, patchId: nat)
    requires Tidy(t)
    ensures Quiet(t, BesidesCommit(t, step, archived, patchId))
    ensures forall x <- archived :: Holds(BesidesCommit(t, step, archived, patchId).events, x)
  {
    WithItemsHolds(t.events, step, archived);
    var t1 := ArchiveItems(t, step, archived);
    AppendQuiet(t1, step, PatchApplied, None);
    var t2 := Log(t1, step, PatchApplied);
    AppendQuiet(t2, step, StateCommittedEvent, None);
    var t3 := Log(t2, step, StateCommittedEvent);
    QuietThen(t1, t2, t3);
    QuietThen(t, t1, t3);
    var t4 := BesidesCommit(t, step, archived, patchId);
    UpdateQuiet(t, t3, t4, step);
    forall x | x in archived ensures Holds(t4.events, x) {
      HoldsMore(t1.events, t4.events, x);
    }
  }

  lemma DecidedFacts(c: Config, t: Tables, p: Proc, known: set<string>, now: int)
    requires p.pc.Commit? && p.decision.Some? && ProposedBy(c, t, p, known, now)
    ensures p.decision.value.patch.expected == p.exec.version
    ensures p.pc.target.version == p.exec.version + 1 && p.pc.target.counters.steps == p.exec.counters.steps
  {
    ApplyFrame.PatchFrame(p.exec, p.decision.value.patch, Some(known), c.policy, now);
  }

  lemma ProposalLinks(c: Config, t: Tables, p: Proc, known: set<string>, now: int, a: State, events: seq<Event>)
    requires p.pc.Commit? && p.decision.Some? && ProposedBy(c, t, p, known, now)
    requires SameContent(p.exec, a) && t.events <= events && forall x <- p.pc.archived :: Holds(events, x)
    ensures ModelWrote(c, p.exec, known, now, a, p.decision.value.patch, p.pc.target, events)
  {
    DecidedFacts(c, t, p, known, now);
    hide Apply.ApplyPatch;
    KnownMore(t.events, events);
  }

  /** The link a patch commit has to provide. */
  ghost predicate PatchLink(c: Config, t: Tables, patch: Patch, s: State, step: nat) {
    Link(c, t.current, VersionRow(step, Some(|t.patches|), s), t.patches + [PatchRow(step, patch, Some(s.version))],
         t.events)
  }

  lemma PatchCommitTables(c: Config, t: Tables, q: Tables, patch: Patch, s: State, step: nat)
    requires TablesOk(c, t) && Quiet(t, q) && PatchLink(c, q, patch, s, step)
    requires s.version == t.current.version + 1 && patch.expected == t.current.version
    requires s.counters.steps == t.current.counters.steps
    ensures TablesOk(c, PatchCommitted(q, patch, s, step)) && Grows(t, PatchCommitted(q, patch, s, step))
  {
    hide Apply.ApplyPatch, Link;
    QuietKeeps(c, t, q);
    PatchedVersion(c, q, s, patch, step);
    GrowsThen(t, q, PatchCommitted(q, patch, s, step));
    hide Linked, PatchesMatch;
  }

  lemma CommitKeeps(c: Config, t: Tables, p: Proc)
    requires TablesOk(c, t) && ProcOk(c, t, p) && p.pc.Commit?
    ensures Kept(c, t, CommitStep(t, p))
  {
    hide Apply.ApplyPatch, Link, CommitStep, PatchesMatch, StepsOk;
    CommitStepShape(t, p);
    SameQuiet(t);
    var m := CommitStep(t, p);
    if m == Go(t, p, RecordStale) || m == Crash(t, p) {
      StayedKeeps(c, t, p, m);
    } else {
      var known, now :| ProposedBy(c, t, p, known, now);
      var patch, s := p.decision.value.patch, p.pc.target;
      var q := BesidesCommit(t, p.step, p.pc.archived, |t.patches|);
      BesidesQuiet(t, p.step, p.pc.archived, |t.patches|);
      DecidedFacts(c, t, p, known, now);
      ModelLink(c, t, p, known, now, q);
      hide BesidesCommit, Linked;
      PatchCommitTables(c, t, q, patch, s, p.step);
      AtCurrent(c, m.tables, m.proc);
    }
  }

  lemma ModelLink(c: Config, t: Tables, p: Proc, known: set<string>, now: int, q: Tables)
    requires p.pc.Commit? && p.decision.Some? && ProposedBy(c, t, p, known, now)
    requires Quiet(t, q) && SameContent(p.exec, t.current) && forall x <- p.pc.archived :: Holds(q.events, x)
    ensures PatchLink(c, q, p.decision.value.patch, p.pc.target, p.step)
  {
    ProposalLinks(c, t, p, known, now, t.current, q.events);
    hide ModelWrote, Apply.ApplyPatch;
  }

  // ---- the ledger ----

  lemma LedgerLink(c: Config, t: Tables, exec: State, patch: Patch, now: int, step: nat)
    requires SameContent(exec, t.current) && ApplyFrame.DomainOnly(patch.ops)
    requires Apply.ApplyPatch(exec, patch, None, c.policy, now).Applied?
    ensures var s := Apply.ApplyPatch(exec, patch, None, c.policy, now).state;
      && PatchLink(c, t, patch, s, step)
      && patch.expected == exec.version && s.version == exec.version + 1 && s.counters.steps == exec.counters.steps
  {
    ApplyFrame.PatchFrame(exec, patch, None, c.policy, now);
    var s := Apply.ApplyPatch(exec, patch, None, c.policy, now).state;
    assert LedgerWrote(c, exec, now, t.current, patch, s);
    hide Apply.ApplyPatch, LedgerWrote;
  }

  lemma UpdateLedgerShape(c: Config, t: Tables, p: Proc, a: Answer)
    requires p.pc.UpdateLedger? && Ordered(p, a)
    ensures var m := UpdateLedgerStep(c, t, p, a);
      || m == Crash(t, p)
      || (p.tool.Some? && m == Go(t, p, Advance(ToolOutput, p.tool.value.content)))
      || (&& p.tool.Some? && CallsTool(p)
          && p.exec.version == t.current.version
          && var patch := LedgerPatch(c, p, p.decision.value.control.action.tool, p.tool.value.facts, a.order);
             var r := Apply.ApplyPatch(p.exec, patch, None, c.policy, a.now);
             && r.Applied?
             && m == Go(Log(PatchCommitted(t, patch, r.state, p.step), p.step, PatchApplied), p.(exec := r.state),
                        Advance(ToolOutput, p.tool.value.content)))
  {
    hide Apply.ApplyPatch, LedgerReadable, LedgerPatch, PairList, Ledger.Raises;
  }

  lemma LedgerPatchEditsDomain(c: Config, p: Proc, tool: string, facts: seq<Ledger.Report>, order: seq<string>)
    requires p.pc.UpdateLedger? && forall k <- order :: k in Ledger.Entries(p.exec.domain, tool)
    ensures ApplyFrame.DomainOnly(LedgerPatch(c, p, tool, facts, order).ops)
  {
    Ledger.LedgerEditsDomain(tool, Ledger.SlotsOf(Ledger.Entries(p.exec.domain, tool), order), facts, c.ledgerCap,
                             p.pc.event, p.step);
  }

  lemma UpdateLedgerKeeps(c: Config, t: Tables, p: Proc, a: Answer)
    requires TablesOk(c, t) && ProcOk(c, t, p) && p.pc.UpdateLedger? && Ordered(p, a)
    ensures Kept(c, t, UpdateLedgerStep(c, t, p, a))
  {
    hide Apply.ApplyPatch, Link, UpdateLedgerStep, PatchesMatch, StepsOk;
    UpdateLedgerShape(c, t, p, a);
    SameQuiet(t);
    var m := UpdateLedgerStep(c, t, p, a);
    if m == Crash(t, p) || (p.tool.Some? && m == Go(t, p, Advance(ToolOutput, p.tool.value.content))) {
      StayedKeeps(c, t, p, m);
    } else {
      var tool := p.decision.value.control.action.tool;
      var patch := LedgerPatch(c, p, tool, p.tool.value.facts, a.order);
      LedgerPatchEditsDomain(c, p, tool, p.tool.value.facts, a.order);
      hide LedgerPatch, TablesOk, ProcOk, Kept, Stayed;
      LedgerCommitKeeps(c, t, p, patch, a.now, m.proc.pc);
    }
  }

  lemma LedgerCommitKeeps(c: Config, t: Tables, p: Proc, patch: Patch, now: int, pc: Pc)
    requires TablesOk(c, t) && ProcOk(c, t, p) && p.exec.version == t.current.version && !Unplaced(p.pc) && !pc.Commit?
    requires ApplyFrame.DomainOnly(patch.ops) && Apply.ApplyPatch(p.exec, patch, None, c.policy, now).Applied?
    ensures var s := Apply.ApplyPatch(p.exec, patch, None, c.policy, now).state;
      Kept(c, t, Go(Log(PatchCommitted(t, patch, s, p.step), p.step, PatchApplied), p.(exec := s), pc))
  {
    hide Apply.ApplyPatch, Link, PatchesMatch, StepsOk;
    LedgerLink(c, t, p.exec, patch, now, p.step);
    SameQuiet(t);
    var s := Apply.ApplyPatch(p.exec, patch, None, c.policy, now).state;
    PatchCommitTables(c, t, t, patch, s, p.step);
    var u, p' := PatchCommitted(t, patch, s, p.step), p.(exec := s, pc := pc);
    AtCurrent(c, u, p');
    AppendQuiet(u, p.step, PatchApplied, None);
    KeptThenQuiet(c, t, Moved(u, p'), Log(u, p.step, PatchApplied));
  }

  // ---- any step ----

  /** Every step of a process keeps the tables consistent, lets them only grow, and leaves the process in order. */
  lemma MicroKeeps(c: Config, t: Tables, p: Proc, a: Answer)
    requires TablesOk(c, t) && ProcOk(c, t, p) && Ordered(p, a)
    ensures Kept(c, t, Micro(c, t, p, a))
  {
    hide Kept, TablesOk, ProcOk, LoadStateStep, LoadStepStep, ReloadStaleStep, DispatchStep, ApplyDecisionStep,
      CommitStep,
      RetrieveMemoryStep, UpdateLedgerStep, AdvanceStep, FinalizeStep;
    match p.pc {
      case LoadState(_) => LoadKeeps(c, t, p);
      case LoadStep(_) => LoadKeeps(c, t, p);
      case ReloadStale => LoadKeeps(c, t, p);
      case Dispatch(_) => DispatchKeeps(c, t, p);
      case ApplyDecision => ApplyDecisionKeeps(c, t, p, a);
      case Commit(_, _) => CommitKeeps(c, t, p);
      case RetrieveMemory => RetrieveMemoryKeeps(c, t, p);
      case UpdateLedger(_) => UpdateLedgerKeeps(c, t, p, a);
      case Advance(_, _) => AdvanceKeeps(c, t, p);
      case Finalize(_) => FinalizeKeeps(c, t, p);
      case _ => QuietMicroKeeps(c, t, p, a);
    }
  }

  predicate QuietPc(pc: Pc) {
    pc.LogResume? || pc.Enter? || pc.BuildContext? || pc.Reason? || pc.RecordStale? || pc.RecordRejection?
        || pc.RequestAction?
    || pc.ExecuteAction? || pc.RunTool? || pc.CaptureObservation? || pc.AwaitHuman? || pc.HandleFailure? || pc.LogEnd?
       || pc.Stopped?
  }

  lemma QuietMicroStays(c: Config, t: Tables, p: Proc, a: Answer)
    requires Tidy(t) && ObsKnown(t, p.obs) && QuietPc(p.pc) && Ordered(p, a)
    ensures Stayed(t, p, Micro(c, t, p, a))
  {
    hide Stayed, Tidy, EnterStep, BuildContextStep, ReasonStep, RecordStaleStep, RecordRejectionStep,
      RequestActionStep, ExecuteActionStep,
      RunToolStep, CaptureObservationStep, AwaitHumanStep, HandleFailureStep, Log;
    match p.pc {
      case LogResume(human) => LogStays(t, p, RunResumed, Dispatch(human));
      case Enter => EnterStays(t, p);
      case BuildContext => BuildContextStays(t, p);
      case Reason => ReasonStays(t, p, a);
      case RecordStale => RejectionsStay(t, p);
      case RecordRejection => RejectionsStay(t, p);
      case RequestAction => RequestActionStays(c, t, p, a);
      case ExecuteAction => ExecuteActionStays(t, p);
      case RunTool(_) => RunToolStays(t, p, a);
      case CaptureObservation => CaptureObservationStays(t, p);
      case AwaitHuman => AwaitHumanStays(t, p);
      case HandleFailure(_) => HandleFailureStays(c, t, p, a);
      case LogEnd(_) => LogStays(t, p, RunEnded, Stopped);
      case Stopped => NothingStays(t, p);
    }
  }

  lemma NothingStays(t: Tables, p: Proc)
    requires Tidy(t) && ObsKnown(t, p.obs) && p.pc.Stopped?
    ensures Stayed(t, p, Go(t, p, Stopped))
  {}

  lemma QuietMicroKeeps(c: Config, t: Tables, p: Proc, a: Answer)
    requires TablesOk(c, t) && ProcOk(c, t, p) && QuietPc(p.pc) && Ordered(p, a)
    ensures Kept(c, t, Micro(c, t, p, a))
  {
    hide Apply.ApplyPatch, Link, Micro;
    QuietMicroStays(c, t, p, a);
    StayedKeeps(c, t, p, Micro(c, t, p, a));
  }
}
