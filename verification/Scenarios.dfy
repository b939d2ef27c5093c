/** Concrete runs: each shows that a limit of the protocol is reached, or that both sides of a case distinction are. */
module Scenarios {
  import opened Domain
  import opened State
  import opened Tables
  import opened Lifecycle
  import opened Versions
  import opened Runs
  import opened Endings
  import Apply
  import Rows
  import VersionSteps

  // ---- labels ----

  /** The answer of every step below; only the reply matters to the steps taken. */
  function Reply(d: Option<Decision>): Answer {
    Answer(0, d, false, true, [], "", [], false)
  }

  /** The process takes `n` steps. */
  function Steps(pid: nat, d: Option<Decision>, n: nat): seq<Label> {
    if n == 0 then [] else Steps(pid, d, n - 1) + [Step(pid, Reply(d))]
  }

  lemma {:induction false} RunSplit(c: Config, s: System, xs: seq<Label>, ys: seq<Label>, solo: bool)
    ensures Run(c, s, xs + ys, solo) == Run(c, Run(c, s, xs, solo), ys, solo)
    decreases |ys|
  {
    hide Do;
    if ys == [] {
      assert xs + ys == xs;
    } else {
      assert (xs + ys)[..|xs + ys| - 1] == xs + ys[..|ys|-1];
      RunSplit(c, s, xs, ys[..|ys|-1], solo);
    }
  }

  lemma RunOne(c: Config, s: System, l: Label, solo: bool)
    ensures Run(c, s, [l], solo) == Do(c, s, l, solo)
  {
    hide Do;
    assert [l][..0] == [];
  }

  lemma NoSteps(c: Config, s: System, pid: nat, d: Option<Decision>, solo: bool)
    ensures Run(c, s, Steps(pid, d, 0), solo) == s
  {
    hide Do;
  }

  /** One more step of a process that neither stops nor runs a tool. */
  lemma OneMore(c: Config, s: System, pid: nat, d: Option<Decision>, n: nat, solo: bool)
    requires var r := Run(c, s, Steps(pid, d, n), solo);
      && pid in r.procs && !r.procs[pid].pc.RunTool? && !r.procs[pid].pc.UpdateLedger?
      && !Micro(c, r.t, r.procs[pid], Reply(d)).proc.pc.Stopped?
    ensures var r := Run(c, s, Steps(pid, d, n), solo); var m := Micro(c, r.t, r.procs[pid], Reply(d));
      Run(c, s, Steps(pid, d, n + 1), solo) == System(m.tables, r.procs[pid := m.proc], r.invoked)
  {
    hide Micro;
    assert (Steps(pid, d, n) + [Step(pid, Reply(d))])[..n] == Steps(pid, d, n) by { StepsLength(pid, d, n); }
    StepsLength(pid, d, n + 1);
  }

  lemma {:induction false} StepsLength(pid: nat, d: Option<Decision>, n: nat)
    ensures |Steps(pid, d, n)| == n
  {
    if n > 0 {
      StepsLength(pid, d, n - 1);
    }
  }

  // ---- patches that are accepted ----

  /** The state passes all checks on a finished patch, and still does when its version, status or counters move. */
  ghost predicate Acceptable(s: State, pol: Apply.Policy) {
    && Apply.WithinLimits(s, pol.limits) && |s.rejected| <= pol.limits.maxRejected
    && (pol.schema.Some? ==> pol.schema.value(s.domain))
    && Apply.IdsOk(s) && Apply.StatementsOk(s, pol.norm)
    && forall v, k, st :: pol.size(s.(version := v, counters := k, status := st)) <= pol.limits.maxBytes
  }

  lemma EmptyPatchAccepted(s: State, archive: Option<set<string>>, pol: Apply.Policy, now: int)
    requires Acceptable(s, pol)
    ensures Apply.ApplyPatch(s, Patch(s.version, []), archive, pol, now)
      == Apply.Applied(s.(version := s.version + 1), [])
  {
    assert s.(version := s.version + 1) == s.(version := s.version + 1, counters := s.counters, status := s.status);
  }

  // ---- single steps ----

  lemma MarkedAt(t: Tables, step: nat, kind: EventKind, phase: Phase)
    requires step in t.steps
    ensures var u := MarkPhase(Log(t, step, kind), step, phase);
      u == t.(events := u.events, steps := t.steps[step := t.steps[step].(phase := phase)])
  {
    hide WithEvent;
  }

  lemma LoggedAt(t: Tables, step: nat, kind: EventKind)
    ensures var u := Log(t, step, kind); u == t.(events := u.events)
  {
    hide WithEvent;
  }

  lemma UnansweredAt(t: Tables, step: nat)
    ensures var u := RecordReply(t, step, None); u == t.(events := u.events)
  {
    hide WithEvent;
  }

  lemma AtBuildContext(c: Config, t: Tables, p: Proc, a: Answer)
    requires p.pc.BuildContext? && p.steps < p.maxSteps && p.exec.counters.steps < p.exec.maxSteps && p.obs.Some?
    ensures Micro(c, t, p, a) == Go(MarkPhase(Log(t, p.step, ContextBuiltEvent), p.step, ContextBuilt), p, Reason)
  {
    hide MarkPhase, Log;
  }

  lemma AtReason(c: Config, t: Tables, p: Proc, a: Answer)
    requires p.pc.Reason?
    ensures var m := Micro(c, t, p, a);
      && m.tables == RecordReply(t, p.step, a.decision)
      && m.proc == p.(modelCalls := p.modelCalls + 1, decision := if a.decision.Some? then a.decision else p.decision,
                      pc := if a.decision.Some? then ApplyDecision
                          else HandleFailure(if a.timeout then TimeoutFail else ModelFail))
  {
    hide RecordReply;
  }

  /** What the process commits for an empty patch. */
  function Target(p: Proc, control: Control): State {
    Decided(p.exec.(version := p.exec.version + 1), p, control)
  }

  lemma AtApplyDecision(c: Config, t: Tables, p: Proc, a: Answer)
    requires p.pc.ApplyDecision? && p.decision.Some? && p.decision.value.patch == Patch(p.exec.version, [])
    requires Acceptable(p.exec, c.policy)
    ensures Micro(c, t, p, a) == Go(t, p, Commit(Target(p, p.decision.value.control), []))
  {
    EmptyPatchAccepted(p.exec, Some(EventIds(t.events)), c.policy, a.now);
    hide Apply.ApplyPatch, Decided, EventIds;
  }

  // ---- from the context to the commit ----

  ghost predicate CanDecide(c: Config, t: Tables, p: Proc) {
    && p.pc.BuildContext? && p.steps < p.maxSteps && p.exec.counters.steps < p.exec.maxSteps && p.obs.Some?
    && p.step in t.steps && Acceptable(p.exec, c.policy)
  }

  /** The row of a step with its decision recorded. */
  function DecidedRow(row: StepRow, d: Decision): StepRow {
    row.(phase := DecisionRecorded, decision := Some(d))
  }

  lemma Decides(c: Config, s: System, pid: nat, control: Control, solo: bool)
    requires pid in s.procs && CanDecide(c, s.t, s.procs[pid])
    ensures var p := s.procs[pid]; var d := Decision(Patch(p.exec.version, []), control);
      var r := Run(c, s, Steps(pid, Some(d), 3), solo);
      && pid in r.procs
      && r == System(s.t.(events := r.t.events, steps := s.t.steps[p.step := DecidedRow(s.t.steps[p.step], d)]),
                     s.procs[pid := r.procs[pid]], s.invoked)
      && r.procs[pid] == p.(pc := Commit(Target(p.(modelCalls := p.modelCalls + 1), control), []), decision := Some(d),
                            modelCalls := p.modelCalls + 1)
  {
    hide Run, Steps, Micro, Ordered, Acceptable, WithEvent, Apply.ApplyPatch;
    var p := s.procs[pid];
    var d := Decision(Patch(p.exec.version, []), control);
    NoSteps(c, s, pid, Some(d), solo);
    AtBuildContext(c, s.t, p, Reply(Some(d)));
    OneMore(c, s, pid, Some(d), 0, solo);
    var s1 := Run(c, s, Steps(pid, Some(d), 1), solo);
    AtReason(c, s1.t, s1.procs[pid], Reply(Some(d)));
    OneMore(c, s, pid, Some(d), 1, solo);
    var s2 := Run(c, s, Steps(pid, Some(d), 2), solo);
    AtApplyDecision(c, s2.t, s2.procs[pid], Reply(Some(d)));
    OneMore(c, s, pid, Some(d), 2, solo);
    var r := Run(c, s, Steps(pid, Some(d), 3), solo);
    assert r.procs == s.procs[pid := r.procs[pid]];
    assert r.t.steps == s.t.steps[p.step := DecidedRow(s.t.steps[p.step], d)];
  }

  function AfterCommit(control: Control, status: Status): Pc {
    match control
    case Complete(_) => Finalize(status)
    case Query(_) => RetrieveMemory
    case Act(_) => RequestAction
  }

  /** The tables after the commit of an empty patch; only the events are left open. */
  predicate CommittedOver(t: Tables, p: Proc, u: Tables)
    requires p.pc.Commit? && p.decision.Some? && p.step in t.steps
  {
    var s := p.pc.target;
    u == t.(current := s, versions := t.versions[s.version := VersionRow(p.step, Some(|t.patches|), s)],
            patches := t.patches + [PatchRow(p.step, p.decision.value.patch, Some(s.version))],
            events := u.events, steps := t.steps[p.step := CommittedRow(t.steps[p.step], |t.patches|)])
  }

  lemma AtCommit(c: Config, t: Tables, p: Proc, a: Answer)
    requires p.pc.Commit? && p.pc.archived == [] && p.decision.Some? && p.step in t.steps
    requires p.exec.version == t.current.version && p.pc.target.version == p.exec.version + 1
    requires p.pc.target.version !in t.versions
    ensures var m := Micro(c, t, p, a);
      && CommittedOver(t, p, m.tables)
      && m.proc == p.(exec := p.pc.target, failures := 0, timeouts := 0,
                      pc := AfterCommit(p.decision.value.control, p.pc.target.status))
  {
    hide WithEvent;
  }

  lemma Commits(c: Config, s: System, pid: nat, solo: bool)
    requires pid in s.procs
    requires var p := s.procs[pid];
      && p.pc.Commit? && p.pc.archived == [] && p.decision.Some? && p.step in s.t.steps
      && p.exec.version == s.t.current.version && p.pc.target.version == p.exec.version + 1
      && p.pc.target.version !in s.t.versions
    ensures var p := s.procs[pid]; var r := Run(c, s, Steps(pid, None, 1), solo);
      && CommittedOver(s.t, p, r.t)
      && pid in r.procs && r == System(r.t, s.procs[pid := r.procs[pid]], s.invoked)
      && r.procs[pid] == p.(exec := p.pc.target, failures := 0, timeouts := 0,
                            pc := AfterCommit(p.decision.value.control, p.pc.target.status))
  {
    hide Run, Steps, Micro, CommittedOver;
    NoSteps(c, s, pid, None, solo);
    AtCommit(c, s.t, s.procs[pid], Reply(None));
    OneMore(c, s, pid, None, 0, solo);
  }

  // ---- losing a commit in an ended run ----

  lemma AtLostCommit(c: Config, t: Tables, p: Proc, a: Answer)
    requires p.pc.Commit? && p.decision.Some?
    requires p.exec.version != t.current.version && p.pc.target.version == p.exec.version + 1
    ensures Micro(c, t, p, a) == Go(t, p, RecordStale)
  {
    hide WithItems, WithEvent;
  }

  lemma AtRecordStale(c: Config, t: Tables, p: Proc, a: Answer)
    requires p.pc.RecordStale? && p.decision.Some?
    ensures var m := Micro(c, t, p, a);
      && m.proc == p.(pc := ReloadStale)
      && m.tables == t.(patches := m.tables.patches, events := m.tables.events)
  {
    hide WithEvent;
  }

  lemma AtReloadStale(c: Config, t: Tables, p: Proc, a: Answer)
    requires p.pc.ReloadStale?
    ensures Micro(c, t, p, a) == Go(t, p.(exec := t.current), Finalize(Paused))
  {}

  lemma AtFinalize(c: Config, t: Tables, p: Proc, a: Answer)
    requires p.pc.Finalize? && p.exec == t.current && p.pc.status != t.current.status
    requires t.current.version + 1 !in t.versions
    ensures var s := t.current.(status := p.pc.status, version := t.current.version + 1);
      Micro(c, t, p, a) == Moved(t.(current := s, versions := t.versions[s.version := VersionRow(p.step, None, s)]),
                                 p.(exec := s, pc := LogEnd(p.pc.status)))
  {}

  /** The loser records its patch as rejected and is about to reload. */
  lemma LosesCommit(c: Config, s: System, pid: nat, solo: bool)
    requires pid in s.procs
    requires var p := s.procs[pid];
      && p.pc.Commit? && p.decision.Some?
      && p.exec.version != s.t.current.version && p.pc.target.version == p.exec.version + 1
    ensures var r := Run(c, s, Steps(pid, None, 2), solo);
      && r.t == s.t.(patches := r.t.patches, events := r.t.events)
      && pid in r.procs && r.procs[pid] == s.procs[pid].(pc := ReloadStale)
  {
    hide Run, Steps, Micro, Ordered;
    var p := s.procs[pid];
    NoSteps(c, s, pid, None, solo);
    AtLostCommit(c, s.t, p, Reply(None));
    OneMore(c, s, pid, None, 0, solo);
    var s1 := Run(c, s, Steps(pid, None, 1), solo);
    AtRecordStale(c, s1.t, s1.procs[pid], Reply(None));
    OneMore(c, s, pid, None, 1, solo);
  }

  /** A process that stands at the commit of a decision when the run ends overturns the end by four more steps of its
      own: it loses the commit, loads the ended state and pauses it. */
  lemma LoserOverturns(c: Config, s: System, pid: nat, solo: bool)
    requires EndingOk(c, s) && s.t.current.status in TERMINAL && pid in s.procs && s.procs[pid].pc.Commit?
    ensures var paused := s.t.current.(status := Paused, version := s.t.current.version + 1);
      var t := Run(c, s, Steps(pid, None, 4), solo).t;
      t.current == paused && t.versions == s.t.versions[paused.version := VersionRow(s.procs[pid].step, None, paused)]
  {
    hide Run, Steps, Micro, Ordered, EndingOk, SystemOk, Apply.ApplyPatch;
    LoserIsBehind(c, s, pid);
    LosesCommit(c, s, pid, solo);
    var s2 := Run(c, s, Steps(pid, None, 2), solo);
    AtReloadStale(c, s2.t, s2.procs[pid], Reply(None));
    OneMore(c, s, pid, None, 2, solo);
    var s3 := Run(c, s, Steps(pid, None, 3), solo);
    AtFinalize(c, s3.t, s3.procs[pid], Reply(None));
    OneMore(c, s, pid, None, 3, solo);
  }

  lemma LoserIsBehind(c: Config, s: System, pid: nat)
    requires EndingOk(c, s) && s.t.current.status in TERMINAL && pid in s.procs && s.procs[pid].pc.Commit?
    ensures var p := s.procs[pid];
      && p.decision.Some? && p.exec.version != s.t.current.version && p.pc.target.version == p.exec.version + 1
      && s.t.current.version + 1 !in s.t.versions
  {
    hide Apply.ApplyPatch, Link, Linked, PatchesMatch, StepsOk;
    var p := s.procs[pid];
    assert ProcOk(c, s.t, p) && EndFits(s.t, p);
    var known, now :| ProposedBy(c, s.t, p, known, now);
    VersionSteps.DecidedFacts(c, s.t, p, known, now);
    hide ProposedBy;
  }

  // ---- when an end is final ----

  /** The process stands at a commit, or is about to overturn the end. */
  predicate CanOverturn(t: Tables, p: Proc) {
    p.pc.Commit? || Overturns(t, p)
  }

  predicate NobodyCan(s: System) {
    forall pid <- s.procs :: !CanOverturn(s.t, s.procs[pid])
  }

  /** From a state in which somebody can, some labels do. */
  lemma SomebodyDoes(c: Config, s: System, solo: bool) returns (labels: seq<Label>)
    requires EndingOk(c, s) && s.t.current.status in TERMINAL && !NobodyCan(s)
    ensures Run(c, s, labels, solo).t.current != s.t.current
  {
    hide EndingOk, Run, Do, Steps;
    var pid :| pid in s.procs && CanOverturn(s.t, s.procs[pid]);
    if s.procs[pid].pc.Commit? {
      labels := Steps(pid, None, 4);
      LoserOverturns(c, s, pid, solo);
    } else {
      labels := [Step(pid, Reply(None))];
      RunOne(c, s, Step(pid, Reply(None)), solo);
      EndedDoOverturnsIff(c, s, Step(pid, Reply(None)), solo);
    }
  }

  /** If the end falls during the run, somebody could overturn it just before. */
  lemma SomebodyCould(c: Config, s: System, labels: seq<Label>, solo: bool) returns (i: nat)
    requires EndingOk(c, s) && s.t.current.status in TERMINAL && Run(c, s, labels, solo).t.current != s.t.current
    ensures i < |labels| && !NobodyCan(Run(c, s, labels[..i], solo))
  {
    hide EndingOk, Run, Overturns;
    EndedRunStaysIff(c, s, labels, solo);
    i :| 0 <= i < |labels| && OverturnsBy(Run(c, s, labels[..i], solo), labels[i]);
    assert CanOverturn(Run(c, s, labels[..i], solo).t, Run(c, s, labels[..i], solo).procs[labels[i].pid]);
  }

  lemma {:induction false} ReachedCannot(c: Config, s: System, labels: seq<Label>, solo: bool)
    requires EndingOk(c, s) && s.t.current.status in TERMINAL
    requires forall ls :: Run(c, s, ls, solo).t.current == s.t.current
    ensures NobodyCan(Run(c, s, labels, solo))
  {
    hide EndingOk, Run, NobodyCan;
    var r := Run(c, s, labels, solo);
    RunFits(c, s, labels, solo);
    if !NobodyCan(r) {
      var more := SomebodyDoes(c, r, solo);
      RunSplit(c, s, labels, more, solo);
    }
  }

  /** The end of a run is final, whatever is stepped, crashed or resumed afterwards, exactly if no continuation brings a
      process to a commit or to an ending that overturns it. */
  lemma EndIsFinalIff(c: Config, s: System, solo: bool)
    requires EndingOk(c, s) && s.t.current.status in TERMINAL
    ensures (forall labels :: Run(c, s, labels, solo).t.current == s.t.current)
       <==> (forall labels :: NobodyCan(Run(c, s, labels, solo)))
  {
    hide EndingOk, Run, NobodyCan;
    if forall labels :: Run(c, s, labels, solo).t.current == s.t.current {
      forall labels ensures NobodyCan(Run(c, s, labels, solo)) {
        ReachedCannot(c, s, labels, solo);
      }
    } else {
      var labels :| Run(c, s, labels, solo).t.current != s.t.current;
      var i := SomebodyCould(c, s, labels, solo);
      assert !NobodyCan(Run(c, s, labels[..i], solo));
    }
  }

  // ---- resuming ----

  lemma AtLoad(c: Config, t: Tables, p: Proc, a: Answer, n: nat)
    ensures p.pc.LoadState? && t.current.status !in TERMINAL ==>
              Micro(c, t, p, a) == Go(t, p.(exec := t.current), LoadStep(p.pc.human))
    ensures p.pc.LoadStep? && LatestStep(t) == Some(n) ==>
              Micro(c, t, p, a) == Go(t, p.(step := n, row := Some(t.steps[n])), LogResume(p.pc.human))
    ensures p.pc.LogResume? ==> Micro(c, t, p, a) == Go(Log(t, p.step, RunResumed), p, Dispatch(p.pc.human))
  {
    hide LatestStep, Log;
  }

  lemma AtDispatch(c: Config, t: Tables, p: Proc, a: Answer)
    requires p.pc.Dispatch? && p.row.Some? && !p.row.value.phase.AwaitingHuman? && p.exec.status == Running
    ensures Micro(c, t, p, a) == Go(t, p, Enter)
  {}

  /** The phases in which a resume enters the step anew, and the one in which it takes the recorded decision up. */
  predicate PlainEntry(row: StepRow) {
    || row.phase.ObservationReady? || row.phase.ContextBuilt? || row.phase.StepFailed?
    || (row.phase.DecisionRecorded? && row.decision.Some?)
  }

  /** The process after its re-entry. */
  function Reentered(p: Proc, row: StepRow, obs: Observation): Proc {
    var p1 := BeginStep(p, p.step, obs);
    if row.phase.DecisionRecorded? then p1.(decision := row.decision, pc := ApplyDecision) else p1.(pc := BuildContext)
  }

  lemma AtEnter(c: Config, t: Tables, p: Proc, a: Answer)
    requires p.pc.Enter? && p.row.Some? && PlainEntry(p.row.value) && p.row.value.observation < |t.observations|
    ensures Micro(c, t, p, a) == Moved(t, Reentered(p, p.row.value, t.observations[p.row.value.observation]))
  {
    hide Interrupt, FindOpenExec;
  }

  /** What a resumed process looks like when it has loaded the state and the latest row. */
  function Loaded(t: Tables, n: nat, pc: Pc): Proc
    requires n in t.steps
  {
    NewProc(pc, t.current, None, 0).(step := n, row := Some(t.steps[n]))
  }

  function ResumeLabels(pid: nat): seq<Label> {
    [Resume(pid, None, 0)] + Steps(pid, None, 5)
  }

  predicate Resumable(s: System, pid: nat, n: nat, solo: bool) {
    && pid !in s.procs && (solo ==> s.procs == map[]) && s.t.current.status == Running
    && LatestStep(s.t) == Some(n) && PlainEntry(s.t.steps[n]) && s.t.steps[n].observation < |s.t.observations|
  }

  lemma ResumeLoads(c: Config, s: System, pid: nat, n: nat, solo: bool)
    requires Resumable(s, pid, n, solo)
    ensures var r := Run(c, Do(c, s, Resume(pid, None, 0), solo), Steps(pid, None, 3), solo);
      r == System(s.t.(events := r.t.events), s.procs[pid := Loaded(s.t, n, Dispatch(None))], s.invoked)
  {
    hide Run, Steps, Micro, Ordered, LatestStep, PlainEntry, NewProc, Loaded, Log, Do;
    var s0 := Do(c, s, Resume(pid, None, 0), solo);
    FreshResume(c, s, pid, n, solo);
    FreshLoads(s.t, n);
    NoSteps(c, s0, pid, None, solo);
    LoadsRow(c, s0, pid, n, solo);
    var s2 := Run(c, s0, Steps(pid, None, 2), solo);
    LoggedAt(s.t, n, RunResumed);
    AtLoad(c, s2.t, s2.procs[pid], Reply(None), n);
    OneMore(c, s0, pid, None, 2, solo);
    var r := Run(c, s0, Steps(pid, None, 3), solo);
    assert r.procs == s.procs[pid := Loaded(s.t, n, Dispatch(None))];
  }

  lemma FreshResume(c: Config, s: System, pid: nat, n: nat, solo: bool)
    requires Resumable(s, pid, n, solo)
    ensures Do(c, s, Resume(pid, None, 0), solo)
         == System(s.t, s.procs[pid := NewProc(LoadState(None), s.t.current, None, 0)], s.invoked)
  {
    hide PlainEntry, LatestStep, NewProc;
  }

  /** A new process after reading the latest row, and after the event of the resume. */
  lemma FreshLoads(t: Tables, n: nat)
    requires n in t.steps
    ensures var p, q := NewProc(LoadState(None), t.current, None, 0), Loaded(t, n, LogResume(None));
      && p.pc == LoadState(None)
      && p.(exec := t.current, step := n, row := Some(t.steps[n]), pc := LogResume(None)) == q
      && q.pc == LogResume(None) && q.step == n && q.(pc := Dispatch(None)) == Loaded(t, n, Dispatch(None))
  {}

  lemma LoadsRow(c: Config, s: System, pid: nat, n: nat, solo: bool)
    requires pid in s.procs && s.procs[pid].pc == LoadState(None) && s.t.current.status !in TERMINAL
    requires LatestStep(s.t) == Some(n)
    ensures var r := Run(c, s, Steps(pid, None, 2), solo);
      r == System(s.t, s.procs[pid := s.procs[pid].(exec := s.t.current, step := n, row := Some(s.t.steps[n]),
                                                    pc := LogResume(None))], s.invoked)
  {
    hide Run, Steps, Micro, Ordered, LatestStep;
    NoSteps(c, s, pid, None, solo);
    AtLoad(c, s.t, s.procs[pid], Reply(None), n);
    OneMore(c, s, pid, None, 0, solo);
    var s1 := Run(c, s, Steps(pid, None, 1), solo);
    AtLoad(c, s1.t, s1.procs[pid], Reply(None), n);
    OneMore(c, s, pid, None, 1, solo);
    var r := Run(c, s, Steps(pid, None, 2), solo);
    assert r.procs == s.procs[pid := r.procs[pid]];
  }

  lemma Resumes(c: Config, s: System, pid: nat, n: nat, solo: bool)
    requires Resumable(s, pid, n, solo)
    ensures var r := Run(c, s, ResumeLabels(pid), solo); var row := s.t.steps[n];
      r == System(s.t.(events := r.t.events),
                  s.procs[pid := Reentered(Loaded(s.t, n, Enter), row, s.t.observations[row.observation])], s.invoked)
  {
    hide Run, Steps, Micro, Ordered, LatestStep, Reentered;
    ResumeLoads(c, s, pid, n, solo);
    var s0 := Do(c, s, Resume(pid, None, 0), solo);
    RunOne(c, s, Resume(pid, None, 0), solo);
    RunSplit(c, s, [Resume(pid, None, 0)], Steps(pid, None, 5), solo);
    hide Do;
    var s3 := Run(c, s0, Steps(pid, None, 3), solo);
    AtDispatch(c, s3.t, s3.procs[pid], Reply(None));
    OneMore(c, s0, pid, None, 3, solo);
    var s4 := Run(c, s0, Steps(pid, None, 4), solo);
    AtEnter(c, s4.t, s4.procs[pid], Reply(None));
    hide PlainEntry;
    ReenteredRuns(s4.procs[pid], s4.procs[pid].row.value, s.t.observations[s.t.steps[n].observation]);
    OneMore(c, s0, pid, None, 4, solo);
    var q := Reentered(Loaded(s.t, n, Enter), s.t.steps[n], s.t.observations[s.t.steps[n].observation]);
    assert s.procs[pid := Loaded(s.t, n, Dispatch(None))][pid := Loaded(s.t, n, Enter)][pid := q] == s.procs[pid := q];
  }

  lemma ReenteredRuns(p: Proc, row: StepRow, obs: Observation)
    ensures !Reentered(p, row, obs).pc.Stopped?
  {}

  // ---- the start ----

  lemma StartsPlain(c: Config, s: State, input: string, now: int, limit: nat)
    requires Blank(s) && c.initial == []
    ensures Start(c, s, input, now, limit).Some?
    ensures var r := Start(c, s, input, now, limit).value;
      && r.t == Tables(s, map[0 := VersionRow(0, None, s)], [], r.t.events,
                       map[0 := StepRow(ObservationReady, 0, None, None, None)], [],
                           [Observation(0, TaskInput, input)], [])
      && r == System(r.t, map[0 := NewProc(BuildContext, s, Some(Observation(0, TaskInput, input)), limit)], [])
  {
    hide Apply.ApplyPatch, WithEvent;
  }

  // ---- a completed run is paused ----

  const FINISH := Decision(Patch(0, []), Complete(Success))

  /** Process 0 asks the model, which completes the run, and is about to commit; process 1 resumes the run meanwhile,
      takes up the recorded decision and is about to commit it too. */
  function ToTheCommit(): seq<Label> {
    Steps(0, Some(FINISH), 3) + ResumeLabels(1) + Steps(1, None, 1)
  }

  /** Then process 0 commits and process 1 loses. */
  function Race(): seq<Label> {
    ToTheCommit() + Steps(0, None, 1) + Steps(1, None, 4)
  }

  /** The conditions under which the scenarios start: an empty state with room for a step, and no initial patch. */
  ghost predicate PlainStart(c: Config, s: State) {
    Blank(s) && c.initial == [] && s.maxSteps > 0 && Acceptable(s, c.policy)
  }

  lemma OnlyStep(t: Tables)
    requires t.steps.Keys == {0}
    ensures LatestStep(t) == Some(0)
  {
    assert 0 in t.steps;
  }

  lemma FirstDecides(c: Config, s: State, input: string, now: int, limit: nat, control: Control, solo: bool)
    requires PlainStart(c, s)
    ensures Start(c, s, input, now, limit).Some?
    ensures var d := Decision(Patch(0, []), control); var s0 := Start(c, s, input, now, limit).value;
      var r := Run(c, s0, Steps(0, Some(d), 3), solo);
      && r.t == s0.t.(events := r.t.events, steps := map[0 := StepRow(DecisionRecorded, 0, Some(d), None, None)])
      && r.procs.Keys == {0} && r.invoked == []
      && r.procs[0] == s0.procs[0].(pc := Commit(Target(s0.procs[0].(modelCalls := 1), control), []),
                                    decision := Some(d), modelCalls := 1)
      && s0.procs == map[0 := NewProc(BuildContext, s, Some(Observation(0, TaskInput, input)), limit)]
      && s0.t == Tables(s, map[0 := VersionRow(0, None, s)], [], s0.t.events,
                        map[0 := StepRow(ObservationReady, 0, None, None, None)], [],
                            [Observation(0, TaskInput, input)], [])
  {
    hide Run, Steps, Acceptable, Start;
    StartsPlain(c, s, input, now, limit);
    Decides(c, Start(c, s, input, now, limit).value, 0, control, solo);
  }

  /** Process 1 resumes a run whose decision is recorded and reaches the commit as well. */
  lemma SecondJoins(c: Config, s: System)
    requires s.procs.Keys == {0} && s.t.current.status == Running && s.t.current.version == 0
    requires s.t.steps == map[0 := StepRow(DecisionRecorded, 0, Some(FINISH), None, None)] && |s.t.observations| == 1
    requires Acceptable(s.t.current, c.policy)
    ensures var r := Run(c, Run(c, s, ResumeLabels(1), false), Steps(1, None, 1), false);
      && r.t == s.t.(events := r.t.events)
      && r.procs.Keys == {0, 1} && r.procs[0] == s.procs[0] && r.procs[1].pc.Commit?
  {
    hide Run, Steps, Acceptable, Micro, Ordered, ResumeLabels, Decided;
    OnlyStep(s.t);
    Resumes(c, s, 1, 0, false);
    var s1 := Run(c, s, ResumeLabels(1), false);
    NoSteps(c, s1, 1, None, false);
    AtApplyDecision(c, s1.t, s1.procs[1], Reply(None));
    OneMore(c, s1, 1, None, 0, false);
  }

  lemma BothAtTheCommit(c: Config, s: State, input: string, now: int, limit: nat)
    requires PlainStart(c, s)
    ensures Start(c, s, input, now, limit).Some?
    ensures var s0 := Start(c, s, input, now, limit).value; var r := Run(c, s0, ToTheCommit(), false);
      && r.procs.Keys == {0, 1} && r.procs[0].pc.Commit? && r.procs[1].pc.Commit?
      && r.t.current == s && r.t.versions == map[0 := VersionRow(0, None, s)] && r.t.steps.Keys == {0}
      && r.procs[0].exec == s && r.procs[0].step == 0 && r.procs[0].decision == Some(FINISH)
      && r.procs[0].pc == Commit(Target(r.procs[0], FINISH.control), [])
  {
    hide Run, Steps, Acceptable, Start, ResumeLabels;
    FirstDecides(c, s, input, now, limit, FINISH.control, false);
    var s0 := Start(c, s, input, now, limit).value;
    SecondJoins(c, Run(c, s0, Steps(0, Some(FINISH), 3), false));
    RunSplit(c, s0, Steps(0, Some(FINISH), 3), ResumeLabels(1), false);
    RunSplit(c, s0, Steps(0, Some(FINISH), 3) + ResumeLabels(1), Steps(1, None, 1), false);
  }

  /** A terminal status is not final under two processes: from every plain start this run ends with a paused version
      on top of a completed one. */
  lemma CompletedRunIsPaused(c: Config, s: State, input: string, now: int, limit: nat)
    requires PlainStart(c, s)
    ensures Start(c, s, input, now, limit).Some?
    ensures var t := Run(c, Start(c, s, input, now, limit).value, Race(), false).t;
      && t.versions.Keys == {0, 1, 2} && t.versions[2].state == t.current
      && t.versions[1].state.status == Completed && t.current == t.versions[1].state.(status := Paused, version := 2)
  {
    hide Run, Steps, Acceptable, Start, ToTheCommit, EndingOk;
    BothAtTheCommit(c, s, input, now, limit);
    var s0 := Start(c, s, input, now, limit).value;
    var s3 := Run(c, s0, ToTheCommit(), false);
    Commits(c, s3, 0, false);
    var s4 := Run(c, s3, Steps(0, None, 1), false);
    RunSplit(c, s0, ToTheCommit(), Steps(0, None, 1), false);
    EveryRunFits(c, s, input, now, limit, ToTheCommit() + Steps(0, None, 1), false);
    LoserOverturns(c, s4, 1, false);
    RunSplit(c, s0, ToTheCommit() + Steps(0, None, 1), Steps(1, None, 4), false);
  }

  lemma PlainStartExists() returns (c: Config, s: State)
    ensures PlainStart(c, s)
  {
    var limits := Apply.Limits(0, 0, 0, 0, 0, 0, 0, 0, 0, 0, 0, 0, 0);
    c := Config(2, 1, 1, 1, 1, 1, Apply.Policy(limits, text => text, state => 0, None), []);
    s := State(0, Running, ZERO, 1, "", [], "", [], [], [], [], [], [], [], [], map[], map[], [], map[], map[], None);
  }

  // ---- a step behind the current one is reopened ----

  lemma AtHandleFailure(c: Config, t: Tables, p: Proc, a: Answer)
    requires p.pc.HandleFailure? && !p.pc.fail.TimeoutFail?
    requires c.maxTimeouts > 0 && p.failures + 1 < c.maxFailures && p.trips + 1 < c.maxFailures
    ensures var m := Micro(c, t, p, a);
      && m.tables == MarkPhase(Log(t, p.step, ErrorEvent), p.step, StepFailed)
      && m.proc == p.(pc := Advance(RuntimeFeedback, a.content), exec := m.proc.exec, timeouts := 0,
                      failures := p.failures + 1,
                      trips := m.proc.trips)
      && m.proc.exec == p.exec.(counters := m.proc.exec.counters) && m.proc.exec.counters.steps == p.exec.counters.steps
  {
    hide MarkPhase, Log;
  }

  lemma AtAdvance(c: Config, t: Tables, p: Proc, a: Answer)
    requires p.pc.Advance? && p.exec.version == t.current.version && t.current.version + 1 !in t.versions
    requires p.step in t.steps && p.step + 1 !in t.steps
    ensures var m := Micro(c, t, p, a);
      && m.tables.current.counters.steps == p.exec.counters.steps + 1
      && m.tables.steps == t.steps[p.step := t.steps[p.step].(phase := Closed)]
                                  [p.step + 1 := StepRow(ObservationReady, |t.observations|, None, None, None)]
      && m.proc.pc.BuildContext?
  {
    hide Micro, NextStep, MarkPhase, SaveObservation, Log;
    AdvanceMicro(c, t, p, a);
    var obs := Observation(|t.observations|, p.pc.kind, p.pc.content);
    ObservedAt(t, p.step, obs);
    var u := SaveObservation(Log(t, p.step + 1, ObservationEvent), obs.kind, obs.content);
    OpensNext(t, MarkPhase(u, p.step, Closed), p, obs);
  }

  lemma AdvanceMicro(c: Config, t: Tables, p: Proc, a: Answer)
    requires p.pc.Advance?
    ensures Micro(c, t, p, a) == AdvanceStep(t, p)
  {
    hide AdvanceStep;
  }

  lemma OpensNext(t0: Tables, t: Tables, p: Proc, obs: Observation)
    requires p.exec.version == t.current.version && t.current.version + 1 !in t.versions && p.step + 1 !in t.steps
    ensures var m := NextStep(t0, t, p, obs);
      && m.tables.current.counters.steps == p.exec.counters.steps + 1
      && m.tables.steps == t.steps[p.step + 1 := StepRow(ObservationReady, obs.id, None, None, None)]
      && m.proc.pc.BuildContext?
  {
    hide WithEvent;
  }

  lemma ObservedAt(t: Tables, step: nat, obs: Observation)
    requires step in t.steps
    ensures var u := SaveObservation(Log(t, step + 1, ObservationEvent), obs.kind, obs.content);
      var w := MarkPhase(u, step, Closed);
      && w.current == t.current && w.versions == t.versions
      && w.steps == t.steps[step := t.steps[step].(phase := Closed)]
  {
    hide WithEvent;
  }

  /** Process 1 resumes the run and is about to build the context of step 0; process 0 fails on it and goes on to
      step 1. */
  function Overtaking(): seq<Label> {
    ResumeLabels(1) + Steps(0, None, 4)
  }

  function Reopening(): seq<Label> {
    Overtaking() + Steps(1, None, 1)
  }

  lemma Fails(c: Config, s: System, solo: bool)
    requires 0 in s.procs && c.maxTimeouts > 0
    requires var p := s.procs[0];
      && p.pc.BuildContext? && p.steps < p.maxSteps && p.exec.counters.steps < p.exec.maxSteps && p.obs.Some?
      && p.failures + 1 < c.maxFailures && p.trips + 1 < c.maxFailures && p.step in s.t.steps
    ensures var p := s.procs[0]; var r := Run(c, s, Steps(0, None, 3), solo);
      && r.t == s.t.(events := r.t.events, steps := r.t.steps) && r.t.steps.Keys == s.t.steps.Keys
      && 0 in r.procs && r.procs == s.procs[0 := r.procs[0]]
      && r.procs[0].pc.Advance? && r.procs[0].step == p.step && r.procs[0].exec.version == p.exec.version
      && r.procs[0].exec.counters.steps == p.exec.counters.steps
  {
    hide Run, Steps, Micro, Ordered, MarkPhase, Log, RecordReply, Do;
    NoSteps(c, s, 0, None, solo);
    MarkedAt(s.t, s.procs[0].step, ContextBuiltEvent, ContextBuilt);
    AtBuildContext(c, s.t, s.procs[0], Reply(None));
    OneMore(c, s, 0, None, 0, solo);
    var s1 := Run(c, s, Steps(0, None, 1), solo);
    UnansweredAt(s1.t, s.procs[0].step);
    AtReason(c, s1.t, s1.procs[0], Reply(None));
    OneMore(c, s, 0, None, 1, solo);
    var s2 := Run(c, s, Steps(0, None, 2), solo);
    MarkedAt(s2.t, s.procs[0].step, ErrorEvent, StepFailed);
    AtHandleFailure(c, s2.t, s2.procs[0], Reply(None));
    OneMore(c, s, 0, None, 2, solo);
    var r := Run(c, s, Steps(0, None, 3), solo);
    assert r.procs == s.procs[0 := r.procs[0]];
  }

  lemma FailsAndAdvances(c: Config, s: System, solo: bool)
    requires 0 in s.procs && c.maxTimeouts > 0
    requires var p := s.procs[0];
      && p.pc.BuildContext? && p.steps < p.maxSteps && p.exec.counters.steps < p.exec.maxSteps && p.obs.Some?
      && p.failures + 1 < c.maxFailures && p.trips + 1 < c.maxFailures
      && p.exec.version == s.t.current.version && s.t.current.version + 1 !in s.t.versions
      && p.step in s.t.steps && p.step + 1 !in s.t.steps
    ensures var p := s.procs[0]; var r := Run(c, s, Steps(0, None, 4), solo);
      && r.t.current.counters.steps == p.exec.counters.steps + 1
      && r.t.steps.Keys == s.t.steps.Keys + {p.step + 1} && r.t.steps[p.step].phase.Closed?
      && r.procs.Keys == s.procs.Keys && forall q <- s.procs :: q != 0 ==> r.procs[q] == s.procs[q]
  {
    hide Run, Steps, Micro, Ordered;
    Fails(c, s, solo);
    var s3 := Run(c, s, Steps(0, None, 3), solo);
    AtAdvance(c, s3.t, s3.procs[0], Reply(None));
    OneMore(c, s, 0, None, 3, solo);
  }

  /** Under two processes a row below the latest need not be closed: from every plain start whose limits allow one
      failure, this run ends with step 1 open and step 0, which was closed, back in the context phase. */
  /** A process at the context of a step that the run has left behind. */
  predicate BehindAtContext(t: Tables, p: Proc) {
    && t.current.counters.steps == 1 && t.steps.Keys == {0, 1} && t.steps[0].phase.Closed?
    && p.pc.BuildContext? && p.step == 0 && p.steps < p.maxSteps && p.exec.counters.steps < p.exec.maxSteps
    && p.obs.Some?
  }

  lemma Overtakes(c: Config, s: State, input: string, now: int, limit: nat)
    requires Blank(s) && c.initial == [] && s.maxSteps > 0 && c.maxFailures > 1 && c.maxTimeouts > 0
    ensures Start(c, s, input, now, limit).Some?
    ensures var r := Run(c, Start(c, s, input, now, limit).value, Overtaking(), false);
      1 in r.procs && BehindAtContext(r.t, r.procs[1])
  {
    hide Run, Steps, Start, Micro, Ordered, ResumeLabels, WithEvent;
    StartsPlain(c, s, input, now, limit);
    var s0 := Start(c, s, input, now, limit).value;
    OnlyStep(s0.t);
    Resumes(c, s0, 1, 0, false);
    FailsAndAdvances(c, Run(c, s0, ResumeLabels(1), false), false);
    RunSplit(c, s0, ResumeLabels(1), Steps(0, None, 4), false);
  }

  lemma Reopens(c: Config, s: System)
    requires 1 in s.procs && BehindAtContext(s.t, s.procs[1])
    ensures var t := Run(c, s, Steps(1, None, 1), false).t;
      t.current.counters.steps == 1 && 0 in t.steps && t.steps[0].phase.ContextBuilt?
  {
    hide Run, Steps, Micro, Ordered, MarkPhase, Log;
    NoSteps(c, s, 1, None, false);
    AtBuildContext(c, s.t, s.procs[1], Reply(None));
    MarkedAt(s.t, 0, ContextBuiltEvent, ContextBuilt);
    OneMore(c, s, 1, None, 0, false);
  }

  lemma ClosedRowIsReopened(c: Config, s: State, input: string, now: int, limit: nat)
    requires Blank(s) && c.initial == [] && s.maxSteps > 0 && c.maxFailures > 1 && c.maxTimeouts > 0
    ensures Start(c, s, input, now, limit).Some?
    ensures var s0 := Start(c, s, input, now, limit).value;
      var (t, u) := (Run(c, s0, Overtaking(), false).t, Run(c, s0, Reopening(), false).t);
      && t.current.counters.steps == 1 && Rows.BelowClosed(t)
      && u.current.counters.steps == 1 && 0 in u.steps && u.steps[0].phase.ContextBuilt? && !Rows.BelowClosed(u)
  {
    hide Run, Steps, Start, Overtaking;
    Overtakes(c, s, input, now, limit);
    var s0 := Start(c, s, input, now, limit).value;
    Reopens(c, Run(c, s0, Overtaking(), false));
    RunSplit(c, s0, Overtaking(), Steps(1, None, 1), false);
  }

  // ---- committed tool steps with and without an action id ----

  const TOOL := Act(ToolCall("tool", ""))

  lemma CommitsPlain(c: Config, s: System, pid: nat, solo: bool)
    requires pid in s.procs
    requires var p := s.procs[pid];
      && p.pc.Commit? && p.pc.archived == [] && p.decision.Some? && p.step in s.t.steps
      && p.exec.version == s.t.current.version && p.pc.target.version == p.exec.version + 1
      && p.pc.target.version !in s.t.versions
    ensures var r := Run(c, s, Steps(pid, None, 1) + [CrashOf(pid)], solo);
      && CommittedOver(s.t, s.procs[pid], r.t) && r.procs == s.procs - {pid}
  {
    hide Run, Steps, CommittedOver;
    Commits(c, s, pid, solo);
    var s1 := Run(c, s, Steps(pid, None, 1), solo);
    RunOne(c, s1, CrashOf(pid), solo);
    RunSplit(c, s, Steps(pid, None, 1), [CrashOf(pid)], solo);
  }

  /** A process dies right after it has committed a tool decision. */
  function DiesCommitted(): seq<Label> {
    Steps(0, Some(Decision(Patch(0, []), TOOL)), 3) + (Steps(0, None, 1) + [CrashOf(0)])
  }

  /** This run of one process ends with a committed tool step whose row carries no action id. */
  lemma CommittedWithoutAction(c: Config, s: State, input: string, now: int, limit: nat)
    requires PlainStart(c, s)
    ensures Start(c, s, input, now, limit).Some?
    ensures var r := Run(c, Start(c, s, input, now, limit).value, DiesCommitted(), true);
      && r.procs == map[] && r.t.steps.Keys == {0}
      && r.t.steps[0] == StepRow(StateCommitted, 0, Some(Decision(Patch(0, []), TOOL)), Some(0), None)
  {
    hide Run, Steps, Acceptable, Start;
    FirstDecides(c, s, input, now, limit, TOOL, true);
    var s0 := Start(c, s, input, now, limit).value;
    var first := Steps(0, Some(Decision(Patch(0, []), TOOL)), 3);
    CommitsPlain(c, Run(c, s0, first, true), 0, true);
    RunSplit(c, s0, first, Steps(0, None, 1) + [CrashOf(0)], true);
  }

  lemma AtRequestContinue(c: Config, t: Tables, p: Proc, a: Answer)
    requires p.pc.RequestAction? && p.obs.Some? && p.decision.Some? && p.decision.value.control == Act(Continue)
    requires p.decision.value.patch.ops == [] && p.continues + 1 >= c.maxContinues
    ensures Micro(c, t, p, a) == Moved(SaveRequest(t, p.step),
                                       p.(actionId := Some(|t.actions|), continues := p.continues + 1,
                                          pc := HandleFailure(LoopFail)))
  {
    hide SaveRequest;
  }

  const NOTE := Decision(Patch(0, []), Act(Continue))

  /** A decision to continue is committed, trips the guard and fails; then the process dies. */
  function FailedPass(): seq<Label> {
    Steps(0, Some(NOTE), 3) + (Steps(0, None, 1) + (Steps(0, None, 2) + [CrashOf(0)]))
  }

  /** The step is done again and a tool decision is committed; then the process dies again. */
  function SecondPass(): seq<Label> {
    Steps(0, Some(Decision(Patch(1, []), TOOL)), 3) + (Steps(0, None, 1) + [CrashOf(0)])
  }

  function LeavesAction(): seq<Label> {
    FailedPass() + ResumeLabels(0) + SecondPass()
  }

  lemma RequestedAt(t: Tables, step: nat)
    requires step in t.steps
    ensures var u := SaveRequest(t, step);
      && u == t.(events := u.events, actions := u.actions, steps := u.steps)
      && u.steps == t.steps[step := t.steps[step].(phase := ActionPending, actionId := Some(|t.actions|))]
  {
    hide WithEvent;
  }

  /** About to request an action that the guard stops. */
  predicate AboutToTrip(c: Config, t: Tables, p: Proc) {
    && c.maxContinues <= 1 && c.maxFailures > 1 && c.maxTimeouts > 0
    && p.pc.RequestAction? && p.decision == Some(NOTE) && p.step in t.steps && p.obs.Some?
    && p.failures == 0 && p.trips == 0
  }

  /** The row of a step that failed after its action had been saved. */
  function TrippedRow(row: StepRow, id: nat): StepRow {
    row.(phase := StepFailed, actionId := Some(id))
  }

  lemma Trips(c: Config, s: System)
    requires 0 in s.procs && AboutToTrip(c, s.t, s.procs[0])
    ensures var p := s.procs[0]; var r := Run(c, s, Steps(0, None, 2), true);
      && r.t == s.t.(events := r.t.events, actions := r.t.actions, steps := r.t.steps)
      && r.t.steps == s.t.steps[p.step := TrippedRow(s.t.steps[p.step], |s.t.actions|)]
      && r.procs.Keys == s.procs.Keys && (forall q <- s.procs :: q != 0 ==> r.procs[q] == s.procs[q])
      && r.invoked == s.invoked
  {
    hide Run, Steps, Micro, Ordered, SaveRequest, MarkPhase, Log;
    NoSteps(c, s, 0, None, true);
    RequestedAt(s.t, s.procs[0].step);
    AtRequestContinue(c, s.t, s.procs[0], Reply(None));
    OneMore(c, s, 0, None, 0, true);
    var s1 := Run(c, s, Steps(0, None, 1), true);
    MarkedAt(s1.t, s.procs[0].step, ErrorEvent, StepFailed);
    AtHandleFailure(c, s1.t, s1.procs[0], Reply(None));
    OneMore(c, s, 0, None, 1, true);
  }

  lemma TripsAndCrashes(c: Config, s: System)
    requires 0 in s.procs && AboutToTrip(c, s.t, s.procs[0])
    ensures var p := s.procs[0]; var r := Run(c, s, Steps(0, None, 2) + [CrashOf(0)], true);
      && r.procs == s.procs - {0} && r.invoked == s.invoked
      && r.t == s.t.(events := r.t.events, actions := r.t.actions,
                     steps := s.t.steps[p.step := TrippedRow(s.t.steps[p.step], |s.t.actions|)])
  {
    hide Run, Steps, AboutToTrip, TrippedRow;
    Trips(c, s);
    var s2 := Run(c, s, Steps(0, None, 2), true);
    RunOne(c, s2, CrashOf(0), true);
    RunSplit(c, s, Steps(0, None, 2), [CrashOf(0)], true);
  }

  lemma TripsAndDies(c: Config, s: System)
    requires 0 in s.procs && c.maxContinues <= 1 && c.maxFailures > 1 && c.maxTimeouts > 0
    requires var p := s.procs[0];
      && p.pc.Commit? && p.pc.archived == [] && p.decision == Some(NOTE) && p.step in s.t.steps && p.obs.Some?
      && p.exec.version == s.t.current.version && p.pc.target.version == p.exec.version + 1
      && p.pc.target.version !in s.t.versions && p.trips == 0
    ensures var p := s.procs[0]; var r := Run(c, s, Steps(0, None, 1) + (Steps(0, None, 2) + [CrashOf(0)]), true);
      && r.procs == s.procs - {0} && r.invoked == s.invoked
      && r.t.current == p.pc.target && r.t.versions.Keys == s.t.versions.Keys + {p.pc.target.version}
      && r.t.patches == s.t.patches + [PatchRow(p.step, NOTE.patch, Some(p.pc.target.version))]
      && r.t.observations == s.t.observations
      && r.t.steps == s.t.steps[p.step := CommittedRow(s.t.steps[p.step], |s.t.patches|).(phase := StepFailed,
          actionId := Some(|s.t.actions|))]
  {
    hide Run, Steps;
    Commits(c, s, 0, true);
    TripsAndCrashes(c, Run(c, s, Steps(0, None, 1), true));
    RunSplit(c, s, Steps(0, None, 1), Steps(0, None, 2) + [CrashOf(0)], true);
  }

  lemma FirstPassFails(c: Config, s: State, input: string, now: int, limit: nat)
    requires PlainStart(c, s) && c.maxContinues <= 1 && c.maxFailures > 1 && c.maxTimeouts > 0
    ensures Start(c, s, input, now, limit).Some?
    ensures var r := Run(c, Start(c, s, input, now, limit).value, FailedPass(), true); var u := r.t.current;
      && r.procs == map[] && u == s.(version := 1, counters := u.counters) && u.counters.steps == 0
      && r.t.versions.Keys == {0, 1} && |r.t.patches| == 1 && |r.t.observations| == 1
      && r.t.steps == map[0 := StepRow(StepFailed, 0, Some(NOTE), Some(0), Some(0))]
  {
    hide Run, Steps, Acceptable, Start;
    FirstDecides(c, s, input, now, limit, NOTE.control, true);
    var s0 := Start(c, s, input, now, limit).value;
    TripsAndDies(c, Run(c, s0, Steps(0, Some(NOTE), 3), true));
    RunSplit(c, s0, Steps(0, Some(NOTE), 3), Steps(0, None, 1) + (Steps(0, None, 2) + [CrashOf(0)]), true);
  }

  lemma StaysAcceptable(s: State, u: State, pol: Apply.Policy)
    requires Acceptable(s, pol) && u == s.(version := u.version, counters := u.counters)
    ensures Acceptable(u, pol)
  {
    forall v, k, st ensures pol.size(u.(version := v, counters := k, status := st)) <= pol.limits.maxBytes {
      assert u.(version := v, counters := k, status := st) == s.(version := v, counters := k, status := st);
    }
  }

  /** This run of one process ends with a committed tool step whose row carries the action id that a failed pass over
      the same step left behind. */
  /** A process that is about to redo step 0, whose row still carries the decision and the action of a failed pass. */
  ghost predicate RedoesStep(c: Config, t: Tables, p: Proc) {
    && CanDecide(c, t, p) && p.step == 0 && p.exec == t.current && t.current.version == 1
    && t.versions.Keys == {0, 1} && |t.patches| == 1
    && t.steps == map[0 := StepRow(StepFailed, 0, Some(NOTE), Some(0), Some(0))]
  }

  lemma ResumesFailedPass(c: Config, s: State, input: string, now: int, limit: nat)
    requires PlainStart(c, s) && c.maxContinues <= 1 && c.maxFailures > 1 && c.maxTimeouts > 0
    ensures Start(c, s, input, now, limit).Some?
    ensures var r := Run(c, Start(c, s, input, now, limit).value, FailedPass() + ResumeLabels(0), true);
      r.procs.Keys == {0} && RedoesStep(c, r.t, r.procs[0])
  {
    hide Run, Steps, Acceptable, Start, ResumeLabels, FailedPass;
    FirstPassFails(c, s, input, now, limit);
    var s0 := Start(c, s, input, now, limit).value;
    var s1 := Run(c, s0, FailedPass(), true);
    OnlyStep(s1.t);
    Resumes(c, s1, 0, 0, true);
    StaysAcceptable(s, s1.t.current, c.policy);
    RunSplit(c, s0, FailedPass(), ResumeLabels(0), true);
  }

  lemma SecondPassCommits(c: Config, s: System)
    requires s.procs.Keys == {0} && RedoesStep(c, s.t, s.procs[0])
    ensures var r := Run(c, s, SecondPass(), true);
      && r.procs == map[] && r.t.steps.Keys == {0}
      && r.t.steps[0] == StepRow(StateCommitted, 0, Some(Decision(Patch(1, []), TOOL)), Some(1), Some(0))
  {
    hide Run, Steps, Acceptable;
    Decides(c, s, 0, TOOL, true);
    var second := Steps(0, Some(Decision(Patch(1, []), TOOL)), 3);
    CommitsPlain(c, Run(c, s, second, true), 0, true);
    RunSplit(c, s, second, Steps(0, None, 1) + [CrashOf(0)], true);
  }

  lemma CommittedWithOldAction(c: Config, s: State, input: string, now: int, limit: nat)
    requires PlainStart(c, s) && c.maxContinues <= 1 && c.maxFailures > 1 && c.maxTimeouts > 0
    ensures Start(c, s, input, now, limit).Some?
    ensures var r := Run(c, Start(c, s, input, now, limit).value, LeavesAction(), true);
      && r.procs == map[] && r.t.steps.Keys == {0}
      && r.t.steps[0] == StepRow(StateCommitted, 0, Some(Decision(Patch(1, []), TOOL)), Some(1), Some(0))
  {
    hide Run, RedoesStep, Start, ResumeLabels, FailedPass, SecondPass;
    ResumesFailedPass(c, s, input, now, limit);
    var s0 := Start(c, s, input, now, limit).value;
    SecondPassCommits(c, Run(c, s0, FailedPass() + ResumeLabels(0), true));
    RunSplit(c, s0, FailedPass() + ResumeLabels(0), SecondPass(), true);
  }
}
