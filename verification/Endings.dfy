/** Ended runs under any number of processes: what can still overturn a terminal status. */
module Endings {
  import opened Domain
  import opened State
  import opened Tables
  import opened Lifecycle
  import opened Versions
  import opened Runs
  import Apply
  import ApplyFrame
  import Bounds
  import VersionSteps

  // ---- the invariant ----

  /** Where a process can stand whose own state has ended. */
  predicate AtEnd(p: Proc) {
    p.pc.LoadState? || p.pc.LogEnd? || p.pc.Stopped? || (p.pc.Finalize? && p.pc.status in {p.exec.status, Paused})
  }

  /** A process that holds the current state of an ended run has nothing left but to end; the loser of a commit is
      behind. */
  predicate EndFits(t: Tables, p: Proc) {
    && (t.current.status in TERMINAL && p.exec.version == t.current.version ==> AtEnd(p))
    && (p.pc.RecordStale? || p.pc.ReloadStale? ==> p.exec.version < t.current.version)
  }

  ghost predicate EndingOk(c: Config, s: System) {
    SystemOk(c, s) && forall pid <- s.procs :: EndFits(s.t, s.procs[pid])
  }

  /** The process is about to put another status on top of the current state, and nothing is in its way. */
  predicate Overturns(t: Tables, p: Proc) {
    p.pc.Finalize? && p.exec.version == t.current.version && p.pc.status != p.exec.status
  }

  // ---- what a step commits ----

  /** The tables are those of before, or the process held the current version and its status, if terminal, belongs to a
      process that ends. */
  predicate CommitsFresh(t: Tables, p: Proc, m: Moved) {
    || m.tables.current == t.current
    || (&& p.exec.version == t.current.version && m.tables.current == m.proc.exec
        && (p.exec.status !in TERMINAL && m.tables.current.status in TERMINAL ==> AtEnd(m.proc)))
  }

  /** Without a commit the process keeps its version, unless it loads the current one. */
  predicate KeepsVersion(t: Tables, p: Proc, m: Moved) {
    m.tables.current == t.current ==>
      || (m.proc.exec.version == p.exec.version && m.proc.exec.status == p.exec.status)
      || (&& (p.pc.LoadState? || p.pc.ReloadStale?)
          && m.proc.exec == t.current && (AtEnd(m.proc) || t.current.status !in TERMINAL))
  }

  lemma LoadShape(t: Tables, p: Proc)
    ensures p.pc.LoadState? ==> var m := LoadStateStep(t, p); CommitsFresh(t, p, m) && KeepsVersion(t, p, m)
    ensures p.pc.LoadStep? ==> var m := LoadStepStep(t, p); CommitsFresh(t, p, m) && KeepsVersion(t, p, m)
    ensures p.pc.ReloadStale? ==> var m := ReloadStaleStep(t, p); CommitsFresh(t, p, m) && KeepsVersion(t, p, m)
  {}

  lemma DispatchShape(t: Tables, p: Proc)
    requires p.pc.Dispatch?
    ensures var m := DispatchStep(t, p); CommitsFresh(t, p, m) && KeepsVersion(t, p, m)
  {}

  lemma ApplyDecisionShape(c: Config, t: Tables, p: Proc, a: Answer)
    requires p.pc.ApplyDecision?
    ensures var m := ApplyDecisionStep(c, t, p, a); CommitsFresh(t, p, m) && KeepsVersion(t, p, m)
  {
    hide Apply.ApplyPatch;
  }

  lemma CommitShape(t: Tables, p: Proc)
    requires p.pc.Commit?
    requires p.decision.Some? && p.exec.status !in TERMINAL && p.pc.target.status in TERMINAL
      ==> p.decision.value.control.Complete?
    ensures var m := CommitStep(t, p); CommitsFresh(t, p, m) && KeepsVersion(t, p, m)
    ensures CommitStep(t, p).proc.pc.RecordStale? ==> p.exec.version != t.current.version
  {
    hide WithItems, WithEvent;
  }

  /** Only a completing decision ends a run. */
  lemma ProposalEnds(c: Config, t: Tables, p: Proc)
    requires ProcOk(c, t, p) && p.pc.Commit? && p.exec.status !in TERMINAL && p.pc.target.status in TERMINAL
    ensures p.decision.value.control.Complete?
  {
    hide Apply.ApplyPatch;
    var known, now :| ProposedBy(c, t, p, known, now);
    ApplyFrame.PatchFrame(p.exec, p.decision.value.patch, Some(known), c.policy, now);
  }

  lemma NextStepFresh(t0: Tables, t: Tables, p: Proc, obs: Observation)
    requires t.current == t0.current
    ensures var m := NextStep(t0, t, p, obs); CommitsFresh(t0, p, m) && KeepsVersion(t0, p, m)
  {}

  lemma AdvanceShape(t: Tables, p: Proc)
    requires p.pc.Advance?
    ensures var m := AdvanceStep(t, p); CommitsFresh(t, p, m) && KeepsVersion(t, p, m)
  {
    hide NextStep;
    var obs := Observation(|t.observations|, p.pc.kind, p.pc.content);
    NextStepFresh(t, MarkPhase(SaveObservation(Log(t, p.step + 1, ObservationEvent), obs.kind, obs.content), p.step,
                               Closed), p, obs);
  }

  lemma RetrieveMemoryShape(t: Tables, p: Proc)
    requires p.pc.RetrieveMemory?
    ensures var m := RetrieveMemoryStep(t, p); CommitsFresh(t, p, m) && KeepsVersion(t, p, m)
  {
    hide NextStep;
    if !(p.obs.None? || p.decision.None? || !p.decision.value.control.Query?) {
      var p1 := p.(exec := Count1(p.exec, (k: Counters) => k.(retrievals := k.retrievals + 1)));
      NextStepFresh(t, MarkPhase(Log(t, p.step, MemoryRetrieval), p.step, Closed), p1, p.obs.value);
    }
  }

  lemma UpdateLedgerFresh(c: Config, t: Tables, p: Proc, a: Answer)
    requires p.pc.UpdateLedger? && Ordered(p, a)
    ensures var m := UpdateLedgerStep(c, t, p, a); CommitsFresh(t, p, m) && KeepsVersion(t, p, m)
  {
    hide Apply.ApplyPatch, UpdateLedgerStep, LedgerPatch;
    VersionSteps.UpdateLedgerShape(c, t, p, a);
    var m := UpdateLedgerStep(c, t, p, a);
    if m != Crash(t, p) && m != Go(t, p, Advance(ToolOutput, p.tool.value.content)) {
      var patch := LedgerPatch(c, p, p.decision.value.control.action.tool, p.tool.value.facts, a.order);
      ApplyFrame.PatchFrame(p.exec, patch, None, c.policy, a.now);
    }
  }

  lemma FinalizeShape(t: Tables, p: Proc)
    requires p.pc.Finalize?
    ensures var m := FinalizeStep(t, p); CommitsFresh(t, p, m) && KeepsVersion(t, p, m)
    ensures Numbered(t) && Overturns(t, p)
      ==> FinalizeStep(t, p).tables.current == p.exec.(status := p.pc.status, version := p.exec.version + 1)
    ensures !Overturns(t, p) ==> FinalizeStep(t, p).tables.current == t.current
  {}

  lemma QuietShape(c: Config, t: Tables, p: Proc, a: Answer)
    requires Tidy(t) && ObsKnown(t, p.obs) && VersionSteps.QuietPc(p.pc) && Ordered(p, a)
    ensures var m := Micro(c, t, p, a); CommitsFresh(t, p, m) && KeepsVersion(t, p, m)
  {
    hide Micro;
    VersionSteps.QuietMicroStays(c, t, p, a);
  }

  lemma MicroShape(c: Config, t: Tables, p: Proc, a: Answer)
    requires TablesOk(c, t) && ProcOk(c, t, p) && Ordered(p, a)
    ensures var m := Micro(c, t, p, a); CommitsFresh(t, p, m) && KeepsVersion(t, p, m)
  {
    hide CommitsFresh, KeepsVersion, TablesOk, ProcOk, LoadStateStep, LoadStepStep, ReloadStaleStep, DispatchStep,
      ApplyDecisionStep, CommitStep, RetrieveMemoryStep, UpdateLedgerStep, AdvanceStep, FinalizeStep;
    match p.pc {
      case LoadState(_) => LoadShape(t, p);
      case LoadStep(_) => LoadShape(t, p);
      case ReloadStale => LoadShape(t, p);
      case Dispatch(_) => DispatchShape(t, p);
      case ApplyDecision => ApplyDecisionShape(c, t, p, a);
      case Commit(_, _) => ProposedCommit(c, t, p);
      case RetrieveMemory => RetrieveMemoryShape(t, p);
      case UpdateLedger(_) => UpdateLedgerFresh(c, t, p, a);
      case Advance(_, _) => AdvanceShape(t, p);
      case Finalize(_) => FinalizeShape(t, p);
      case _ => TidyParts(c, t, p); QuietShape(c, t, p, a);
    }
  }

  lemma ProposedCommit(c: Config, t: Tables, p: Proc)
    requires ProcOk(c, t, p) && p.pc.Commit?
    ensures var m := CommitStep(t, p); CommitsFresh(t, p, m) && KeepsVersion(t, p, m)
    ensures CommitStep(t, p).proc.pc.RecordStale? ==> p.exec.version != t.current.version
  {
    hide ProcOk, CommitStep, CommitsFresh, KeepsVersion;
    if p.decision.Some? && p.exec.status !in TERMINAL && p.pc.target.status in TERMINAL {
      ProposalEnds(c, t, p);
    }
    CommitShape(t, p);
  }

  lemma TidyParts(c: Config, t: Tables, p: Proc)
    requires TablesOk(c, t) && ProcOk(c, t, p)
    ensures Tidy(t) && ObsKnown(t, p.obs) && Numbered(t) && Anchored(t, p.exec, p.pc, p.step)
  {
    hide Apply.ApplyPatch, Link;
  }

  // ---- one step ----

  /** An ended state is not loaded, and the ending of an ended process commits nothing else. */
  lemma EndSteps(c: Config, t: Tables, p: Proc, a: Answer)
    requires AtEnd(p) && Ordered(p, a)
    ensures var m := Micro(c, t, p, a);
      && (p.pc.LoadState? && t.current.status in TERMINAL ==> m.proc.pc.Stopped?)
      && (!p.pc.LoadState? ==> AtEnd(m.proc))
      && (!p.pc.Finalize? ==> m.tables.current == t.current)
  {
    hide CommitState, WithEvent;
  }

  lemma StaleCommits(c: Config, t: Tables, p: Proc, a: Answer)
    requires TablesOk(c, t) && ProcOk(c, t, p) && Ordered(p, a)
    requires p.pc.RecordStale? || p.pc.ReloadStale? ==> p.exec.version < t.current.version
    ensures var m := Micro(c, t, p, a);
      m.proc.pc.RecordStale? || m.proc.pc.ReloadStale? ==> p.exec.version < t.current.version
  {
    hide Micro, TablesOk, ProcOk;
    TidyParts(c, t, p);
    Bounds.MicroIsEdge(c, t, p, a);
    if p.pc.Commit? {
      ProposedCommit(c, t, p);
      CommitMicro(c, t, p, a);
    }
  }

  lemma CommitMicro(c: Config, t: Tables, p: Proc, a: Answer)
    requires p.pc.Commit?
    ensures Micro(c, t, p, a) == CommitStep(t, p)
  {
    hide CommitStep;
  }

  lemma MicroEndFits(c: Config, t: Tables, p: Proc, a: Answer)
    requires TablesOk(c, t) && ProcOk(c, t, p) && Ordered(p, a) && EndFits(t, p)
    ensures var m := Micro(c, t, p, a); EndFits(m.tables, m.proc)
  {
    hide Micro, TablesOk, ProcOk;
    TidyParts(c, t, p);
    MicroShape(c, t, p, a);
    StaleCommits(c, t, p, a);
    if AtEnd(p) {
      EndSteps(c, t, p, a);
    }
    StaleMoves(c, t, p, a);
  }

  /** What follows a lost commit commits nothing and keeps the version until the current state is loaded. */
  lemma StaleMoves(c: Config, t: Tables, p: Proc, a: Answer)
    requires TablesOk(c, t) && ProcOk(c, t, p) && Ordered(p, a)
    ensures var m := Micro(c, t, p, a);
      m.proc.pc.RecordStale? || m.proc.pc.ReloadStale? ==>
        m.tables.current == t.current && m.proc.exec.version == p.exec.version
  {
    hide Micro, TablesOk, ProcOk, CommitStep;
    Bounds.MicroIsEdge(c, t, p, a);
    TidyParts(c, t, p);
    if p.pc.Commit? {
      CommitMicro(c, t, p, a);
      if CommitStep(t, p).proc.pc.RecordStale? {
        LostCommit(t, p);
      }
    } else if p.pc.RecordStale? {
      VersionSteps.QuietMicroStays(c, t, p, a);
    }
  }

  lemma LostCommit(t: Tables, p: Proc)
    requires p.pc.Commit? && CommitStep(t, p).proc.pc.RecordStale?
    ensures CommitStep(t, p) == Go(t, p, RecordStale)
  {
    hide WithItems, WithEvent;
  }

  /** Once a run has ended, a step changes the state exactly if the process is about to end it with another status
      and holds the current version; the other status is then `paused`. */
  lemma EndedStepOverturnsIff(c: Config, t: Tables, p: Proc, a: Answer)
    requires TablesOk(c, t) && ProcOk(c, t, p) && Ordered(p, a) && EndFits(t, p) && t.current.status in TERMINAL
    ensures var u := Micro(c, t, p, a).tables;
      && (u.current != t.current <==> Overturns(t, p))
      && (Overturns(t, p) ==>
            u.current == t.current.(counters := p.exec.counters, status := Paused, version := t.current.version + 1))
  {
    hide Micro, TablesOk, ProcOk;
    TidyParts(c, t, p);
    MicroShape(c, t, p, a);
    if AtEnd(p) {
      EndSteps(c, t, p, a);
    }
    if p.pc.Finalize? {
      FinalizeMicro(c, t, p, a);
      FinalizeShape(t, p);
    }
  }

  lemma FinalizeMicro(c: Config, t: Tables, p: Proc, a: Answer)
    requires p.pc.Finalize?
    ensures Micro(c, t, p, a) == FinalizeStep(t, p)
  {
    hide FinalizeStep;
  }

  // ---- whole runs ----

  lemma OthersFit(t: Tables, u: Tables, p: Proc)
    requires EndFits(t, p) && Grows(t, u) && Numbered(t) && Anchored(t, p.exec, p.pc, p.step)
    ensures EndFits(u, p)
  {}

  lemma StepFits(c: Config, s: System, pid: nat, a: Answer, solo: bool)
    requires EndingOk(c, s)
    ensures EndingOk(c, Do(c, s, Step(pid, a), solo))
  {
    hide Apply.ApplyPatch, TablesOk, ProcOk, Grows, Micro, Ordered, EndFits;
    StepKeeps(c, s, pid, a, solo);
    if pid in s.procs && Ordered(s.procs[pid], a) {
      MicroEndFits(c, s.t, s.procs[pid], a);
      var u := Micro(c, s.t, s.procs[pid], a).tables;
      forall q | q in s.procs ensures EndFits(u, s.procs[q]) {
        TidyParts(c, s.t, s.procs[q]);
        OthersFit(s.t, u, s.procs[q]);
      }
    }
  }

  lemma ResumeFits(c: Config, s: System, pid: nat, human: Option<string>, limit: nat, solo: bool)
    requires EndingOk(c, s)
    ensures EndingOk(c, Do(c, s, Resume(pid, human, limit), solo))
  {
    hide Apply.ApplyPatch, TablesOk, ProcOk;
    ResumeKeeps(c, s, pid, human, limit, solo);
  }

  lemma CrashFits(c: Config, s: System, pid: nat, solo: bool)
    requires EndingOk(c, s)
    ensures EndingOk(c, Do(c, s, CrashOf(pid), solo))
  {
    hide TablesOk, ProcOk, EndFits, Micro, Ordered, NewProc;
  }

  lemma DoFits(c: Config, s: System, l: Label, solo: bool)
    requires EndingOk(c, s)
    ensures EndingOk(c, Do(c, s, l, solo))
  {
    match l
    case Step(pid, a) =>
      hide EndingOk, Do;
      StepFits(c, s, pid, a, solo);
    case CrashOf(pid) =>
      hide EndingOk, Do;
      CrashFits(c, s, pid, solo);
    case Resume(pid, human, limit) =>
      hide EndingOk, Do;
      ResumeFits(c, s, pid, human, limit, solo);
  }

  lemma {:induction false} RunFits(c: Config, s: System, labels: seq<Label>, solo: bool)
    requires EndingOk(c, s)
    ensures EndingOk(c, Run(c, s, labels, solo))
    decreases |labels|
  {
    hide EndingOk, Do;
    if labels != [] {
      RunFits(c, s, labels[..|labels|-1], solo);
      DoFits(c, Run(c, s, labels[..|labels|-1], solo), labels[|labels|-1], solo);
    }
  }

  /** Every run of any number of processes keeps the invariant, from the first commit on. */
  lemma EveryRunFits(c: Config, s: State, input: string, now: int, limit: nat, labels: seq<Label>, solo: bool)
    requires Blank(s) && Start(c, s, input, now, limit).Some?
    ensures EndingOk(c, Run(c, Start(c, s, input, now, limit).value, labels, solo))
  {
    StartFits(c, s, input, now, limit);
    hide EndingOk, Start, Blank;
    RunFits(c, Start(c, s, input, now, limit).value, labels, solo);
  }

  lemma StartFits(c: Config, s: State, input: string, now: int, limit: nat)
    requires Blank(s) && Start(c, s, input, now, limit).Some?
    ensures EndingOk(c, Start(c, s, input, now, limit).value)
  {
    hide SystemOk;
    StartOk(c, s, input, now, limit);
    StartStatus(c, s, input, now, limit);
    hide Start, Blank;
  }

  lemma StartStatus(c: Config, s: State, input: string, now: int, limit: nat)
    requires Blank(s) && Start(c, s, input, now, limit).Some?
    ensures var r := Start(c, s, input, now, limit).value;
      r.t.current.status !in TERMINAL && forall pid <- r.procs :: r.procs[pid].pc.BuildContext?
  {
    hide Apply.ApplyPatch, CreatedTables;
    var t := CreatedTables(s, input);
    if c.initial != [] {
      ApplyFrame.PatchFrame(s, Patch(0, c.initial), None, c.policy.(schema := None), now);
    } else {
      CreatedCurrent(s, input);
    }
  }

  lemma CreatedCurrent(s: State, input: string)
    ensures CreatedTables(s, input).current == s
  {}

  /** The label steps a process that overturns the end of the run. */
  predicate OverturnsBy(s: System, l: Label) {
    l.Step? && l.pid in s.procs && Overturns(s.t, s.procs[l.pid])
  }

  /** No label of the run overturns its end. */
  predicate NothingOverturns(c: Config, s: System, labels: seq<Label>, solo: bool) {
    forall i :: 0 <= i < |labels| ==> !OverturnsBy(Run(c, s, labels[..i], solo), labels[i])
  }

  lemma EndedDoOverturnsIff(c: Config, s: System, l: Label, solo: bool)
    requires EndingOk(c, s) && s.t.current.status in TERMINAL
    ensures Do(c, s, l, solo).t.current == s.t.current <==> !OverturnsBy(s, l)
  {
    hide Apply.ApplyPatch, TablesOk, ProcOk, Micro, Ordered, EndFits, Overturns;
    if l.Step? && l.pid in s.procs {
      FinalizeIsOrdered(s.t, s.procs[l.pid], l.answer);
      if Ordered(s.procs[l.pid], l.answer) {
        EndedStepOverturnsIff(c, s.t, s.procs[l.pid], l.answer);
      }
    }
  }

  lemma FinalizeIsOrdered(t: Tables, p: Proc, a: Answer)
    ensures Overturns(t, p) ==> Ordered(p, a)
  {}

  lemma PrefixOverturns(c: Config, s: System, labels: seq<Label>, solo: bool)
    requires labels != []
    ensures var n := |labels| - 1;
      NothingOverturns(c, s, labels, solo) <==>
      NothingOverturns(c, s, labels[..n], solo) && !OverturnsBy(Run(c, s, labels[..n], solo), labels[n])
  {
    hide Run, OverturnsBy;
    var n := |labels| - 1;
    assert forall i :: 0 <= i < n ==> labels[..n][..i] == labels[..i];
    if NothingOverturns(c, s, labels[..n], solo) && !OverturnsBy(Run(c, s, labels[..n], solo), labels[n]) {
      forall i | 0 <= i < |labels| ensures !OverturnsBy(Run(c, s, labels[..i], solo), labels[i]) {
        if i < n {
          assert labels[..n][..i] == labels[..i] && labels[..n][i] == labels[i];
        }
      }
    }
  }

  /** Tables that have grown are the same in state and versions as soon as the version number is. */
  lemma SameVersion(c: Config, t: Tables, u: Tables)
    requires TablesOk(c, t) && TablesOk(c, u) && Grows(t, u)
    ensures u.current == t.current && u.versions == t.versions <==> u.current.version == t.current.version
    ensures u.current == t.current <==> u.current.version == t.current.version
  {
    hide Apply.ApplyPatch, Link, Linked, PatchesMatch, StepsOk;
    if u.current.version == t.current.version {
      assert u.versions.Keys == t.versions.Keys;
    }
  }

  lemma SystemTables(c: Config, s: System)
    requires EndingOk(c, s)
    ensures SystemOk(c, s) && TablesOk(c, s.t)
  {
    hide TablesOk, ProcOk, EndFits;
  }

  lemma {:induction false} EndedVersionStaysIff(c: Config, s: System, labels: seq<Label>, solo: bool)
    requires EndingOk(c, s) && s.t.current.status in TERMINAL
    ensures Run(c, s, labels, solo).t.current.version == s.t.current.version <==> NothingOverturns(c, s, labels, solo)
    decreases |labels|
  {
    hide EndingOk, SystemOk, TablesOk, Do, OverturnsBy;
    if labels != [] {
      var n := |labels| - 1;
      var mid := Run(c, s, labels[..n], solo);
      EndedVersionStaysIff(c, s, labels[..n], solo);
      PrefixOverturns(c, s, labels, solo);
      hide NothingOverturns;
      SystemTables(c, s);
      RunFits(c, s, labels[..n], solo);
      SystemTables(c, mid);
      RunKeeps(c, s, labels[..n], solo);
      SameVersion(c, s.t, mid.t);
      DoFits(c, mid, labels[n], solo);
      DoKeeps(c, mid, labels[n], solo);
      SystemTables(c, Do(c, mid, labels[n], solo));
      SameVersion(c, mid.t, Do(c, mid, labels[n], solo).t);
      if mid.t.current == s.t.current {
        EndedDoOverturnsIff(c, mid, labels[n], solo);
      }
    }
  }

  /** A run that has ended keeps its state and its version history, under any number of processes, exactly if none of
      its labels overturns the end. */
  lemma EndedRunStaysIff(c: Config, s: System, labels: seq<Label>, solo: bool)
    requires EndingOk(c, s) && s.t.current.status in TERMINAL
    ensures var t := Run(c, s, labels, solo).t;
      t.current == s.t.current && t.versions == s.t.versions <==> NothingOverturns(c, s, labels, solo)
  {
    hide EndingOk, SystemOk, TablesOk, NothingOverturns, Run;
    EndedVersionStaysIff(c, s, labels, solo);
    SystemTables(c, s);
    RunFits(c, s, labels, solo);
    SystemTables(c, Run(c, s, labels, solo));
    RunKeeps(c, s, labels, solo);
    SameVersion(c, s.t, Run(c, s, labels, solo).t);
  }

  // ---- a condition on the processes ----

  /** The process can no longer propose a decision, and what it ends with is no other status on top of the current
      state. */
  predicate Harmless(t: Tables, p: Proc) {
    && !Overturns(t, p)
    && match p.pc
       case LoadStep(_) | LogResume(_) | Dispatch(_) | Enter | BuildContext | Reason | ApplyDecision | Commit(_, _)
          | RecordStale | ReloadStale => false
       case _ => true
  }

  lemma BehindOpensNoStep(c: Config, t: Tables, p: Proc, a: Answer)
    requires (p.pc.Advance? || p.pc.RetrieveMemory?) && p.exec.version != t.current.version
    ensures Micro(c, t, p, a).proc.pc.Stopped?
  {}

  lemma StaysHarmless(c: Config, t: Tables, p: Proc, a: Answer)
    requires TablesOk(c, t) && ProcOk(c, t, p) && Ordered(p, a) && EndFits(t, p) && t.current.status in TERMINAL
    requires Harmless(t, p)
    ensures var m := Micro(c, t, p, a); m.tables.current == t.current && Harmless(m.tables, m.proc)
  {
    hide Micro, TablesOk, ProcOk;
    EndedStepOverturnsIff(c, t, p, a);
    MicroEndFits(c, t, p, a);
    MicroShape(c, t, p, a);
    Bounds.MicroIsEdge(c, t, p, a);
    TidyParts(c, t, p);
    if AtEnd(p) {
      EndSteps(c, t, p, a);
    }
    if (p.pc.Advance? || p.pc.RetrieveMemory?) && p.exec.version != t.current.version {
      BehindOpensNoStep(c, t, p, a);
    }
  }

  /** While nobody but harmless processes is alive, whatever is stepped, crashed or resumed, an ended run stays as it
      is. */
  lemma {:induction false} HarmlessRunStaysEnded(c: Config, s: System, labels: seq<Label>, solo: bool)
    requires EndingOk(c, s) && s.t.current.status in TERMINAL && forall pid <- s.procs :: Harmless(s.t, s.procs[pid])
    ensures var r := Run(c, s, labels, solo);
      r.t.current == s.t.current && forall pid <- r.procs :: Harmless(r.t, r.procs[pid])
    decreases |labels|
  {
    hide EndingOk, Do, Harmless;
    if labels != [] {
      HarmlessRunStaysEnded(c, s, labels[..|labels|-1], solo);
      RunFits(c, s, labels[..|labels|-1], solo);
      HarmlessDo(c, Run(c, s, labels[..|labels|-1], solo), labels[|labels|-1], solo);
    }
  }

  lemma HarmlessDo(c: Config, s: System, l: Label, solo: bool)
    requires EndingOk(c, s) && s.t.current.status in TERMINAL && forall pid <- s.procs :: Harmless(s.t, s.procs[pid])
    ensures var r := Do(c, s, l, solo);
      r.t.current == s.t.current && forall pid <- r.procs :: Harmless(r.t, r.procs[pid])
  {
    hide Apply.ApplyPatch, TablesOk, ProcOk, Micro, Ordered, EndFits;
    if l.Step? && l.pid in s.procs && Ordered(s.procs[l.pid], l.answer) {
      StaysHarmless(c, s.t, s.procs[l.pid], l.answer);
    }
  }
}
