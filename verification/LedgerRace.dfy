/** A concrete run of three processes in which a tool reports twice in one step, and what that does to its ledger. */
module LedgerRace {
  import opened Domain
  import opened State
  import opened Tables
  import opened Lifecycle
  import opened LoopGuard
  import opened Runs
  import opened Scenarios
  import opened Ledger
  import opened LedgerProofs
  import Apply
  import ApplyFrame
  import LedgerRuns
  import Sorting

  // ---- the cap at equal steps ----

  lemma VictimKeys(entries: Dict, order: seq<string>, facts: seq<Report>, cap: nat, step: nat)
    requires Enumerates(order, entries) && forall k <- order :: k in entries
    ensures var V, all := Keys(Victims(SlotsOf(entries, order), facts, step, cap)), entries.Keys + ReportedKeys(facts);
      V <= all && |V| == if |all| <= cap then 0 else |all| - cap
  {
    var slots := SlotsOf(entries, order);
    SlotKeys(entries, order);
    ExistingShape(slots, facts, step);
    var existing := Existing(slots, facts, step);
    ExistingSize(entries, order, facts, step);
    OldestOverIsOldest(existing, cap);
    DistinctCardinality(OldestOver(existing, cap));
    forall v | v in OldestOver(existing, cap) ensures v.key in Keys(existing) {}
  }

  /** An accepted update keeps the cap exactly if it evicts no key that it reports. */
  lemma CapKeptExactly(entries: Dict, order: seq<string>, facts: seq<Report>, cap: nat, event: string, step: nat)
    requires Enumerates(order, entries) && forall k <- order :: k in entries
    requires Keys(Victims(SlotsOf(entries, order), facts, step, cap)) <= entries.Keys
    ensures var V := Keys(Victims(SlotsOf(entries, order), facts, step, cap));
      |LedgerAfter(entries, order, facts, cap, event, step)| <= cap <==> V !! ReportedKeys(facts)
  {
    var V, R := Keys(Victims(SlotsOf(entries, order), facts, step, cap)), ReportedKeys(facts);
    VictimKeys(entries, order, facts, cap, step);
    var after := LedgerAfter(entries, order, facts, cap, event, step);
    assert after.Keys == entries.Keys - V + R;
    CountAfter(entries.Keys, V, R);
    assert |after| == |after.Keys|;
  }

  lemma CountAfter(E: set<string>, V: set<string>, R: set<string>)
    requires V <= E
    ensures |E - V + R| == |E + R| - |V| + |V * R|
  {
    var gone := V - R;
    assert E + R == (E - V + R) + gone && (E - V + R) !! gone;
    assert V == gone + V * R && gone !! (V * R);
  }

  // ---- steps with a report ----

  /** The answer of the steps of a tool: what it reports, and the order of the ledger it meets. */
  function Reporting(facts: seq<Report>, order: seq<string>): Answer {
    Answer(0, None, false, true, facts, "", order, false)
  }

  function Repeat(pid: nat, a: Answer, n: nat): seq<Label> {
    if n == 0 then [] else Repeat(pid, a, n - 1) + [Step(pid, a)]
  }

  lemma {:induction false} RepeatLength(pid: nat, a: Answer, n: nat)
    ensures |Repeat(pid, a, n)| == n
  {
    if n > 0 {
      RepeatLength(pid, a, n - 1);
    }
  }

  lemma NoRepeat(c: Config, s: System, pid: nat, a: Answer)
    ensures Run(c, s, Repeat(pid, a, 0), false) == s
  {
    hide Do;
  }

  /** One more step of a process that does not stop. */
  lemma OnceMore(c: Config, s: System, pid: nat, a: Answer, n: nat)
    requires var r := Run(c, s, Repeat(pid, a, n), false);
      && pid in r.procs && Ordered(r.procs[pid], a) && !Micro(c, r.t, r.procs[pid], a).proc.pc.Stopped?
    ensures var r := Run(c, s, Repeat(pid, a, n), false); var m := Micro(c, r.t, r.procs[pid], a);
      var q := Run(c, s, Repeat(pid, a, n + 1), false);
      q.t == m.tables && q.procs == r.procs[pid := m.proc]
  {
    hide Micro, Ordered;
    assert (Repeat(pid, a, n) + [Step(pid, a)])[..n] == Repeat(pid, a, n) by { RepeatLength(pid, a, n); }
    RepeatLength(pid, a, n + 1);
  }

  lemma FirstDoesNotTrip(sig: Signature, window: nat, repeats: nat)
    requires repeats > 1
    ensures !LoopGuard.Trips([], sig, window, repeats)
  {
    assert [] + [sig] == [sig] && [sig][..0] == [];
    if window == 0 {
      assert LastN([sig], 0) == [];
    } else {
      assert Count([sig], sig) == Count([sig][..0], sig) + 1 == 1;
    }
  }

  lemma AtRequestTool(c: Config, t: Tables, p: Proc, a: Answer)
    requires p.pc.RequestAction? && p.obs.Some? && p.decision.Some? && p.decision.value.control == TOOL
    requires p.recent == [] && c.maxRepeats > 1
    ensures var m := Micro(c, t, p, a);
      && m.tables == SaveRequest(t, p.step)
      && m.proc == p.(actionId := Some(|t.actions|), recent := m.proc.recent, pc := ExecuteAction)
  {
    FirstDoesNotTrip(Signature("tool", "", p.obs.value.content), c.window, c.maxRepeats);
    hide SaveRequest, LoopGuard.Trips, Window;
  }

  lemma AtExecute(c: Config, t: Tables, p: Proc, a: Answer)
    requires p.pc.ExecuteAction? && CallsTool(p)
    ensures var m := Micro(c, t, p, a);
      && m.tables == MarkPhase(Log(StartExec(t, p.step), p.step, ToolStarted), p.step, ActionDispatched)
      && m.proc == p.(pc := RunTool(|t.execs|))
  {
    hide MarkPhase, Log, StartExec;
  }

  lemma AtRunTool(c: Config, t: Tables, p: Proc, a: Answer)
    requires p.pc.RunTool?
    ensures var r := ToolReturn(Some(p.pc.exec), a.toolOk, a.facts, a.content);
      Micro(c, t, p, a) == Moved(t, p.(tool := Some(r), pc := CaptureObservation))
  {}

  /** Capturing closes the execution and counts the call. */
  lemma AtCapture(c: Config, t: Tables, p: Proc, a: Answer)
    requires p.pc.CaptureObservation? && CallsTool(p) && p.tool.Some?
    ensures var m := Micro(c, t, p, a);
      && m.tables == t.(events := m.tables.events, execs := m.tables.execs)
      && m.proc.pc.UpdateLedger? && m.proc == p.(exec := m.proc.exec, pc := m.proc.pc)
      && m.proc.exec == p.exec.(counters := m.proc.exec.counters)
      && m.proc.exec.counters.steps == p.exec.counters.steps
  {
    hide ClosedEvent, LastEvent, WithEvent;
  }

  /** A process that has just committed a tool call. */
  predicate AboutToCall(c: Config, t: Tables, p: Proc) {
    && p.pc.RequestAction? && p.obs.Some? && p.decision.Some? && p.decision.value.control == TOOL
    && p.recent == [] && c.maxRepeats > 1 && p.step in t.steps
  }

  /** Where the row of the step is dispatched and nothing else has moved in current state, versions and other rows. */
  predicate Dispatched(t: Tables, step: nat, u: Tables)
    requires step in t.steps
  {
    && u.current == t.current && u.versions == t.versions && u.observations == t.observations
    && u.steps.Keys == t.steps.Keys && u.steps[step].observation == t.steps[step].observation
    && u.steps[step].phase.ActionDispatched?
  }

  lemma CallsAndCaptures(c: Config, s: System, pid: nat, a: Answer)
    requires pid in s.procs && AboutToCall(c, s.t, s.procs[pid])
    ensures var p := s.procs[pid]; var r := Run(c, s, Repeat(pid, a, 4), false);
      && Dispatched(s.t, p.step, r.t)
      && pid in r.procs && r.procs == s.procs[pid := r.procs[pid]]
      && var q := r.procs[pid];
         && q.pc.UpdateLedger? && q.step == p.step && q.decision == p.decision
         && q.tool.Some? && q.tool.value.facts == a.facts && q.tool.value.ok == a.toolOk
         && q.exec == p.exec.(counters := q.exec.counters) && q.exec.counters.steps == p.exec.counters.steps
  {
    hide Run, Repeat, Micro, WithEvent;
    var p := s.procs[pid];
    NoRepeat(c, s, pid, a);
    AtRequestTool(c, s.t, p, a);
    OnceMore(c, s, pid, a, 0);
    var s1 := Run(c, s, Repeat(pid, a, 1), false);
    AtExecute(c, s1.t, s1.procs[pid], a);
    OnceMore(c, s, pid, a, 1);
    var s2 := Run(c, s, Repeat(pid, a, 2), false);
    AtRunTool(c, s2.t, s2.procs[pid], a);
    OnceMore(c, s, pid, a, 2);
    var s3 := Run(c, s, Repeat(pid, a, 3), false);
    AtCapture(c, s3.t, s3.procs[pid], a);
    OnceMore(c, s, pid, a, 3);
    var r := Run(c, s, Repeat(pid, a, 4), false);
    assert r.procs == s.procs[pid := r.procs[pid]];
  }

  // ---- an accepted ledger update ----

  /** Every state with these records is accepted, whatever its domain. */
  ghost predicate Tolerant(s: State, pol: Apply.Policy) {
    && pol.schema.None? && Apply.WithinLimits(s, pol.limits) && |s.rejected| <= pol.limits.maxRejected
    && Apply.IdsOk(s) && Apply.StatementsOk(s, pol.norm)
    && forall x: State :: pol.size(x) <= pol.limits.maxBytes
  }

  lemma DomainPatchAccepted(s: State, ops: seq<Op>, pol: Apply.Policy, now: int)
    requires Tolerant(s, pol) && s.status !in TERMINAL && ApplyFrame.DomainOnly(ops)
    requires ApplyFrame.EditAll(s.domain, ops).Ok?
    ensures Apply.ApplyPatch(s, Patch(s.version, ops), None, pol, now).Applied?
    ensures Apply.ApplyPatch(s, Patch(s.version, ops), None, pol, now).state
         == s.(domain := ApplyFrame.EditAll(s.domain, ops).value, version := s.version + 1)
  {
    ApplyFrame.DomainOpsOnlyEditDomain(s, ops, pol.norm, now);
    NoEvidenceAsked(ops);
    var d := ApplyFrame.EditAll(s.domain, ops).value;
    hide ApplyFrame.EditAll, Apply.ApplyOps, Apply.CheckEvidence, ApplyFrame.DomainOnly;
    FinishTolerated(s, s.(domain := d), Apply.ApplyOps(s, ops, pol.norm, now).archived, pol);
  }

  lemma FinishTolerated(s: State, x: State, a: seq<Archived>, pol: Apply.Policy)
    requires Tolerant(s, pol) && x == s.(domain := x.domain)
    ensures Apply.Finish(x, a, s.version, pol).Applied?
    ensures Apply.Finish(x, a, s.version, pol).state == x.(version := s.version + 1)
  {}

  lemma {:induction false} OpsCount(tool: string, slots: seq<Slot>, facts: seq<Report>, event: string, step: nat)
    ensures |DeleteOps(tool, slots)| == |slots| && |SetOps(tool, facts, event, step)| == |facts|
    decreases |slots| + |facts|
  {
    if slots != [] {
      OpsCount(tool, slots[..|slots|-1], facts, event, step);
    } else if facts != [] {
      OpsCount(tool, slots, facts[..|facts|-1], event, step);
    }
  }

  /** A ledger update that is accepted: nothing raises, few operations, and every evicted key is there. */
  predicate Updatable(c: Config, domain: Dict, facts: seq<Report>, order: seq<string>, step: nat) {
    var entries := Entries(domain, "tool");
    && LedgerShaped(domain, "tool") && Enumerates(order, entries) && (forall k <- order :: k in entries)
    && facts != [] && !Raises(entries, facts, c.ledgerCap)
    && var victims := Victims(SlotsOf(entries, order), facts, step, c.ledgerCap);
       |victims| + |facts| <= MAX_PATCH_OPS && Keys(victims) <= entries.Keys
  }

  lemma UpdateApplies(c: Config, s: State, facts: seq<Report>, order: seq<string>, event: string, step: nat, now: int)
    requires Tolerant(s, c.policy) && s.status !in TERMINAL && Updatable(c, s.domain, facts, order, step)
    ensures var entries := Entries(s.domain, "tool");
      var ops := LedgerOps("tool", SlotsOf(entries, order), facts, c.ledgerCap, event, step);
      var r := Apply.ApplyPatch(s, Patch(s.version, ops), None, c.policy, now);
      var after := LedgerAfter(entries, order, facts, c.ledgerCap, event, step);
      && |ops| <= MAX_PATCH_OPS && r.Applied?
      && r.state == s.(domain := WithLedger(s.domain, "tool", after), version := s.version + 1)
  {
    hide Tolerant, Apply.ApplyPatch, Existing, Enumerates, Latest, Raises, ApplyFrame.EditAll, OldestOver;
    var entries := Entries(s.domain, "tool");
    var slots := SlotsOf(entries, order);
    var victims := Victims(slots, facts, step, c.ledgerCap);
    SlotKeys(entries, order);
    ExistingShape(slots, facts, step);
    OldestOverIsOldest(Existing(slots, facts, step), c.ledgerCap);
    OpsCount("tool", victims, facts, event, step);
    VictimsThenFacts(s.domain, "tool", victims, facts, event, step);
    DomainPatchAccepted(s, DeleteOps("tool", victims) + SetOps("tool", facts, event, step), c.policy, now);
  }

  lemma ShapedIsReadable(domain: Dict, tool: string)
    requires LedgerShaped(domain, tool)
    ensures LedgerReadable(domain, tool) && !PairList(domain, tool)
  {}

  /** The step that commits the report. */
  lemma LedgerCommits(c: Config, t: Tables, p: Proc, a: Answer, s: State)
    requires p.pc.UpdateLedger? && Ordered(p, a) && p.decision.Some? && p.decision.value.control == TOOL
    requires p.tool.Some? && p.tool.value.ok && p.tool.value.facts != []
    requires LedgerReadable(p.exec.domain, "tool") && !PairList(p.exec.domain, "tool")
    requires !Raises(Entries(p.exec.domain, "tool"), p.tool.value.facts, c.ledgerCap)
    requires var patch := LedgerPatch(c, p, "tool", p.tool.value.facts, a.order);
      var r := Apply.ApplyPatch(p.exec, patch, None, c.policy, a.now);
      |patch.ops| <= MAX_PATCH_OPS && r.Applied? && r.state == s
    requires s.version == p.exec.version + 1 && p.exec.version == t.current.version && s.version !in t.versions
    ensures var m := UpdateLedgerStep(c, t, p, a); var u := m.tables;
      && m.proc.pc.Advance? && u == t.(current := s, versions := u.versions, patches := u.patches, events := u.events)
      && u.versions == t.versions[s.version := VersionRow(p.step, Some(|t.patches|), s)]
  {
    hide Apply.ApplyPatch, LedgerPatch, Raises, LedgerReadable, PairList, WithEvent, Ordered;
  }

  lemma LedgerMicro(c: Config, t: Tables, p: Proc, a: Answer)
    requires p.pc.UpdateLedger? && Ordered(p, a)
    ensures Micro(c, t, p, a) == UpdateLedgerStep(c, t, p, a)
  {
    hide UpdateLedgerStep;
  }

  lemma AtLedger(c: Config, t: Tables, p: Proc, a: Answer)
    requires p.pc.UpdateLedger? && p.decision.Some? && p.decision.value.control == TOOL
    requires p.tool.Some? && p.tool.value.ok
    requires Tolerant(p.exec, c.policy) && p.exec.status !in TERMINAL
    requires Updatable(c, p.exec.domain, p.tool.value.facts, a.order, p.step)
    requires p.exec.version == t.current.version && t.current.version + 1 !in t.versions
    ensures Ordered(p, a)
    ensures var m := Micro(c, t, p, a); var u := m.tables;
      && m.proc.pc.Advance?
      && u == t.(current := u.current, versions := u.versions, patches := u.patches, events := u.events)
      && u.current == p.exec.(domain := WithLedger(p.exec.domain, "tool",
                                                   LedgerAfter(Entries(p.exec.domain, "tool"), a.order,
                                                               p.tool.value.facts, c.ledgerCap, p.pc.event, p.step)),
                              version := p.exec.version + 1)
      && u.versions == t.versions[u.current.version := VersionRow(p.step, Some(|t.patches|), u.current)]
  {
    hide Micro, UpdateLedgerStep, Tolerant, Apply.ApplyPatch, LedgerOps, LedgerAfter, WithLedger, Raises,
      LedgerReadable, PairList, Victims, Enumerates, LedgerShaped;
    UpdateApplies(c, p.exec, p.tool.value.facts, a.order, p.pc.event, p.step, a.now);
    ShapedIsReadable(p.exec.domain, "tool");
    var patch := LedgerPatch(c, p, "tool", p.tool.value.facts, a.order);
    LedgerCommits(c, t, p, a, Apply.ApplyPatch(p.exec, patch, None, c.policy, a.now).state);
    LedgerMicro(c, t, p, a);
  }

  // ---- a whole step ----

  /** A process decides on a tool call without touching the state, commits, calls the tool and reports. */
  function Turn(pid: nat, version: nat, facts: seq<Report>, order: seq<string>): seq<Label> {
    Steps(pid, Some(Decision(Patch(version, []), TOOL)), 3) + Steps(pid, None, 1)
    + Repeat(pid, Reporting(facts, order), 5)
  }

  /** What a whole turn does to the tables. */
  predicate TurnedOver(c: Config, t: Tables, step: nat, facts: seq<Report>, order: seq<string>, event: string,
                       u: Tables)
    requires step in t.steps && forall k <- order :: k in Entries(t.current.domain, "tool")
  {
    var (s, x) := (t.current, u.current);
    && x == s.(version := s.version + 2, counters := x.counters,
               domain := WithLedger(s.domain, "tool",
                                    LedgerAfter(Entries(s.domain, "tool"), order, facts, c.ledgerCap, event, step)))
    && x.counters.steps == s.counters.steps
    && u.versions.Keys == t.versions.Keys + {s.version + 1, s.version + 2} && u.versions[s.version + 2].step == step
    && u.observations == t.observations
    && u.steps.Keys == t.steps.Keys && u.steps[step].observation == t.steps[step].observation
    && u.steps[step].phase.ActionDispatched?
  }

  /** What the call and its report do to them. */
  predicate ReportedOver(c: Config, t: Tables, step: nat, facts: seq<Report>, order: seq<string>, event: string,
                         u: Tables)
    requires step in t.steps && forall k <- order :: k in Entries(t.current.domain, "tool")
  {
    var (s, x) := (t.current, u.current);
    && x == s.(version := s.version + 1, counters := x.counters,
               domain := WithLedger(s.domain, "tool",
                                    LedgerAfter(Entries(s.domain, "tool"), order, facts, c.ledgerCap, event, step)))
    && x.counters.steps == s.counters.steps
    && u.versions.Keys == t.versions.Keys + {s.version + 1} && u.versions[s.version + 1].step == step
    && u.observations == t.observations
    && u.steps.Keys == t.steps.Keys && u.steps[step].observation == t.steps[step].observation
    && u.steps[step].phase.ActionDispatched?
  }

  lemma CaptureThenLedger(c: Config, t: Tables, mid: Tables, q: Proc, facts: seq<Report>, order: seq<string>, u: Tables)
    requires q.step in t.steps && q.pc.UpdateLedger? && Dispatched(t, q.step, mid)
    requires q.exec == t.current.(counters := q.exec.counters) && q.exec.counters.steps == t.current.counters.steps
    requires forall k <- order :: k in Entries(t.current.domain, "tool")
    requires u == mid.(current := u.current, versions := u.versions, patches := u.patches, events := u.events)
    requires u.current == q.exec.(domain := WithLedger(q.exec.domain, "tool",
                                                       LedgerAfter(Entries(q.exec.domain, "tool"), order, facts,
                                                                   c.ledgerCap, q.pc.event, q.step)),
                                  version := q.exec.version + 1)
    requires u.versions == mid.versions[u.current.version := VersionRow(q.step, Some(|mid.patches|), u.current)]
    ensures ReportedOver(c, t, q.step, facts, order, q.pc.event, u)
  {
    hide LedgerAfter, WithLedger, Entries;
  }

  lemma CallReports(c: Config, s: System, pid: nat, facts: seq<Report>, order: seq<string>) returns (event: string)
    requires pid in s.procs && AboutToCall(c, s.t, s.procs[pid])
    requires var p := s.procs[pid];
      && p.exec == s.t.current && p.exec.status !in TERMINAL && s.t.current.version + 1 !in s.t.versions
      && Tolerant(p.exec, c.policy) && Updatable(c, p.exec.domain, facts, order, p.step)
    ensures forall k <- order :: k in Entries(s.t.current.domain, "tool")
    ensures var p := s.procs[pid]; var r := Run(c, s, Repeat(pid, Reporting(facts, order), 5), false);
      && ReportedOver(c, s.t, p.step, facts, order, event, r.t)
      && pid in r.procs && r.procs == s.procs[pid := r.procs[pid]]
  {
    hide Run, Repeat, Micro, Ordered, LedgerAfter, WithLedger, Updatable, Tolerant, ReportedOver, Entries;
    UpdatableOrder(c, s.t.current.domain, facts, order, s.procs[pid].step);
    var a := Reporting(facts, order);
    CallsAndCaptures(c, s, pid, a);
    var r := Run(c, s, Repeat(pid, a, 4), false);
    var q := r.procs[pid];
    event := q.pc.event;
    StaysTolerant(s.procs[pid].exec, q.exec, c.policy);
    AtLedger(c, r.t, q, a);
    OnceMore(c, s, pid, a, 4);
    var w := Run(c, s, Repeat(pid, a, 5), false);
    CaptureThenLedger(c, s.t, r.t, q, facts, order, w.t);
    assert w.procs == s.procs[pid := w.procs[pid]];
  }

  lemma UpdatableOrder(c: Config, domain: Dict, facts: seq<Report>, order: seq<string>, step: nat)
    requires Updatable(c, domain, facts, order, step)
    ensures forall k <- order :: k in Entries(domain, "tool")
  {}

  lemma StaysTolerant(s: State, x: State, pol: Apply.Policy)
    requires Tolerant(s, pol)
    requires x == s.(version := x.version, counters := x.counters, status := x.status, domain := x.domain)
    ensures Tolerant(x, pol) && Acceptable(x, pol)
  {}

  /** A commit and a report make a turn. */
  lemma CommitThenReport(c: Config, t: Tables, p: Proc, mid: Tables, facts: seq<Report>, order: seq<string>,
                         event: string, u: Tables)
    requires p.step in t.steps && p.pc.Commit? && p.decision.Some? && CommittedOver(t, p, mid)
    requires p.pc.target == t.current.(version := t.current.version + 1, counters := p.pc.target.counters)
    requires p.pc.target.counters.steps == t.current.counters.steps
    requires forall k <- order :: k in Entries(t.current.domain, "tool")
    requires ReportedOver(c, mid, p.step, facts, order, event, u)
    ensures TurnedOver(c, t, p.step, facts, order, event, u)
  {
    hide LedgerAfter, WithLedger, Entries;
    var v := t.current.version;
    assert mid.versions.Keys == t.versions.Keys + {v + 1};
    assert mid.steps.Keys == t.steps.Keys;
  }

  lemma DecidesAndCommits(c: Config, s: System, pid: nat) returns (mid: Tables, q: Proc)
    requires pid in s.procs && CanDecide(c, s.t, s.procs[pid])
    requires var p := s.procs[pid];
      p.exec == s.t.current && p.exec.status == Running && p.exec.version + 1 !in s.t.versions
    ensures var p := s.procs[pid]; var d := Decision(Patch(p.exec.version, []), TOOL);
      var r := Run(c, s, Steps(pid, Some(d), 3) + Steps(pid, None, 1), false);
      && mid == s.t.(events := mid.events, steps := mid.steps)
      && p.step in mid.steps && mid.steps.Keys == s.t.steps.Keys
      && mid.steps[p.step].observation == s.t.steps[p.step].observation
      && q.pc.Commit? && q.decision.Some? && q.step == p.step && CommittedOver(mid, q, r.t)
      && q.pc.target == s.t.current.(version := s.t.current.version + 1, counters := q.pc.target.counters)
      && q.pc.target.counters.steps == s.t.current.counters.steps
      && pid in r.procs && r.procs == s.procs[pid := r.procs[pid]]
      && r.procs[pid] == p.(exec := q.pc.target, pc := RequestAction, decision := Some(d), failures := 0, timeouts := 0,
                            modelCalls := p.modelCalls + 1)
  {
    hide Run, Steps, Acceptable, CommittedOver;
    var p := s.procs[pid];
    var d := Decision(Patch(p.exec.version, []), TOOL);
    Decides(c, s, pid, TOOL, false);
    var s1 := Run(c, s, Steps(pid, Some(d), 3), false);
    mid, q := s1.t, s1.procs[pid];
    Commits(c, s1, pid, false);
    RunSplit(c, s, Steps(pid, Some(d), 3), Steps(pid, None, 1), false);
    var r := Run(c, s1, Steps(pid, None, 1), false);
    assert r.procs == s.procs[pid := r.procs[pid]];
  }

  lemma CommittedParts(t: Tables, p: Proc, u: Tables)
    requires p.pc.Commit? && p.decision.Some? && p.step in t.steps && CommittedOver(t, p, u)
    ensures u.current == p.pc.target && u.versions.Keys == t.versions.Keys + {p.pc.target.version}
    ensures u.steps.Keys == t.steps.Keys && u.observations == t.observations
  {}

  lemma NextIsFree(t: Tables, u: Tables, v: nat)
    requires u.versions.Keys == t.versions.Keys + {v + 1} && u.current.version == v + 1 && v + 2 !in t.versions
    ensures u.current.version + 1 !in u.versions
  {}

  lemma SameDomain(s: State, x: State, pol: Apply.Policy)
    requires Tolerant(s, pol) && x == s.(version := x.version, counters := x.counters)
    ensures x.domain == s.domain && x.status == s.status && Tolerant(x, pol)
  {
    hide Tolerant, Acceptable;
    StaysTolerant(s, x, pol);
  }

  lemma CallsNext(c: Config, t: Tables, p: Proc, u: Tables, p': Proc)
    requires CanDecide(c, t, p) && p.recent == [] && c.maxRepeats > 1 && p.step in u.steps
    requires p' == p.(exec := p'.exec, pc := RequestAction, decision := p'.decision, failures := 0, timeouts := 0,
                      modelCalls := p'.modelCalls)
    requires p'.decision.Some? && p'.decision.value.control == TOOL
    ensures AboutToCall(c, u, p')
  {}

  lemma TurnCommits(c: Config, t: Tables, p: Proc, mid: Tables, q: Proc, u: Tables, p': Proc)
    requires p.step in t.steps && CanDecide(c, t, p) && p.recent == [] && c.maxRepeats > 1 && Tolerant(p.exec, c.policy)
    requires p.exec == t.current && p.exec.status == Running && p.exec.version + 2 !in t.versions
    requires mid == t.(events := mid.events, steps := mid.steps) && mid.steps.Keys == t.steps.Keys
    requires q.pc.Commit? && q.decision.Some? && q.step == p.step && CommittedOver(mid, q, u)
    requires q.pc.target == t.current.(version := t.current.version + 1, counters := q.pc.target.counters)
    requires p' == p.(exec := q.pc.target, pc := RequestAction, decision := p'.decision, failures := 0, timeouts := 0,
                      modelCalls := p.modelCalls + 1)
    requires p'.decision.Some? && p'.decision.value.control == TOOL
    ensures AboutToCall(c, u, p') && p'.exec == u.current && u.current.version + 1 !in u.versions
    ensures Tolerant(p'.exec, c.policy) && p'.exec.domain == p.exec.domain && p'.exec.status == Running
  {
    hide Tolerant, CommittedOver, Acceptable, CanDecide, AboutToCall;
    CommittedParts(mid, q, u);
    SameDomain(t.current, u.current, c.policy);
    CallsNext(c, t, p, u, p');
    NextIsFree(t, u, p.exec.version);
  }

  lemma TurnReports(c: Config, s: System, pid: nat, facts: seq<Report>, order: seq<string>) returns (event: string)
    requires pid in s.procs && CanDecide(c, s.t, s.procs[pid]) && s.procs[pid].recent == [] && c.maxRepeats > 1
    requires var p := s.procs[pid];
      && p.exec == s.t.current && p.exec.status == Running
      && p.exec.version + 1 !in s.t.versions && p.exec.version + 2 !in s.t.versions
      && Tolerant(p.exec, c.policy) && Updatable(c, p.exec.domain, facts, order, p.step)
    ensures forall k <- order :: k in Entries(s.t.current.domain, "tool")
    ensures var p := s.procs[pid]; var r := Run(c, s, Turn(pid, p.exec.version, facts, order), false);
      && TurnedOver(c, s.t, p.step, facts, order, event, r.t)
      && pid in r.procs && r.procs == s.procs[pid := r.procs[pid]]
  {
    hide Run, Repeat, Steps, ReportedOver, TurnedOver, Tolerant, Acceptable, Updatable, Entries, Micro, Ordered, Do,
      CommittedOver, AboutToCall, CanDecide;
    var p := s.procs[pid];
    UpdatableOrder(c, s.t.current.domain, facts, order, p.step);
    var mid, q := DecidesAndCommits(c, s, pid);
    var labels := Steps(pid, Some(Decision(Patch(p.exec.version, []), TOOL)), 3) + Steps(pid, None, 1);
    var s2 := Run(c, s, labels, false);
    TurnCommits(c, s.t, p, mid, q, s2.t, s2.procs[pid]);
    event := CallReports(c, s2, pid, facts, order);
    RunSplit(c, s, labels, Repeat(pid, Reporting(facts, order), 5), false);
    var r := Run(c, s2, Repeat(pid, Reporting(facts, order), 5), false);
    CommitThenReport(c, mid, q, s2.t, facts, order, event, r.t);
    SameTurn(c, s.t, mid, p.step, facts, order, event, r.t);
    assert r.procs == s.procs[pid := r.procs[pid]];
  }

  /** The steps before the commit move events and the row of the step only. */
  lemma SameTurn(c: Config, t: Tables, t1: Tables, step: nat, facts: seq<Report>, order: seq<string>, event: string,
                 u: Tables)
    requires step in t.steps && t1 == t.(events := t1.events, steps := t1.steps)
    requires t1.steps.Keys == t.steps.Keys && t1.steps[step].observation == t.steps[step].observation
    requires forall k <- order :: k in Entries(t.current.domain, "tool")
    requires TurnedOver(c, t1, step, facts, order, event, u)
    ensures TurnedOver(c, t, step, facts, order, event, u)
  {}

  // ---- two reports in one step ----

  const FIRST := [Report("a", map[]), Report("b", map[])]
  const SECOND := [Report("a", map[]), Report("c", map[])]

  /** Process 1 loads the run and is about to build the context of step 0; process 0 does the step and reports;
      process 1 goes on, which reopens the row, and dies; process 2 resumes the run and does the step once more. */
  function TwoReports(): seq<Label> {
    ResumeLabels(1) + Turn(0, 0, FIRST, []) + (Steps(1, None, 1) + ResumeLabels(2)) + Turn(2, 2, SECOND, ["a", "b"])
  }

  /** Entries written at a step. */
  predicate Stamped(entries: Dict, step: nat) {
    forall k <- entries :: entries[k].Obj? && "_step" in entries[k].fields && entries[k].fields["_step"] == Num(step)
  }

  lemma {:induction false} LatestIsStamped(facts: seq<Report>, event: string, step: nat)
    ensures Stamped(Latest(facts, event, step), step)
    decreases |facts|
  {
    if facts != [] {
      LatestIsStamped(facts[..|facts|-1], event, step);
    }
  }

  lemma KeysOfTwo(x: string, y: string)
    requires |x| == 1 && |y| == 1 && CleanChar(x[0]) && CleanChar(y[0])
    ensures Sanitize(x) == x && Sanitize(y) == y
    ensures ReportedKeys([Report(x, map[]), Report(y, map[])]) == {x, y}
  {
    var facts := [Report(x, map[]), Report(y, map[])];
    assert facts[0] in facts && facts[1] in facts;
  }

  lemma NoneEvicted(facts: seq<Report>, step: nat)
    requires ReportedKeys(facts) == {"a", "b"}
    ensures SlotsOf(map[], []) == [] && Victims([], facts, step, 2) == []
  {
    ExistingSize(map[], [], facts, step);
    assert |{"a", "b"}| == 2;
  }

  lemma FirstFits(c: Config, domain: Dict, event: string)
    requires c.ledgerCap == 2 && "tool" !in domain
    ensures Updatable(c, domain, FIRST, [], 0)
    ensures var after := LedgerAfter(map[], [], FIRST, 2, event, 0); after.Keys == {"a", "b"} && Stamped(after, 0)
  {
    hide Existing, Sanitize, Latest, ReportedKeys, Comparable, StepOf, Stamped;
    KeysOfTwo("a", "b");
    LatestIsStamped(FIRST, event, 0);
    NoneEvicted(FIRST, 0);
    assert map[] - Keys([]) + Latest(FIRST, event, 0) == Latest(FIRST, event, 0);
  }

  lemma ExistingTwo(slots: seq<Slot>, r: Report, q: Report, step: int)
    ensures Existing(slots, [r, q], step) == Upsert(Upsert(slots, Sanitize(r.key), step), Sanitize(q.key), step)
  {
    assert [r, q][..1] == [r] && [r][..0] == [];
    assert Existing(slots, [r], step) == Upsert(slots, Sanitize(r.key), step);
    hide Sanitize, Upsert;
  }

  /** The merged dictionary lists the old keys first, and all of them carry the step of the report. */
  lemma MergedSlots(step: int)
    ensures Existing([Slot("a", step), Slot("b", step)], SECOND, step)
         == [Slot("a", step), Slot("b", step), Slot("c", step)]
    ensures OldestOver([Slot("a", step), Slot("b", step), Slot("c", step)], 2) == [Slot("a", step)]
  {
    KeysOfTwo("a", "c");
    var ab, abc := [Slot("a", step), Slot("b", step)], [Slot("a", step), Slot("b", step), Slot("c", step)];
    ExistingTwo(ab, SECOND[0], SECOND[1], step);
    assert ab[1..] == [Slot("b", step)] && ab[1..][1..] == [];
    UpsertNew(ab, "c", step);
    assert Upsert(ab, "a", step) == ab && Upsert(ab, "c", step) == abc;
    SortedAlready(abc);
  }

  lemma SortedAlready(all: seq<Slot>)
    requires |all| == 3 && all[0].step == all[1].step == all[2].step
    ensures Sorting.SortBy(all, SlotStep()) == all
  {
    assert all[..2][..1] == [all[0]] && all[..2][..1][..0] == [];
    assert Sorting.SortBy(all[..2][..1], SlotStep()) == [all[0]];
    assert Sorting.SortBy(all[..2], SlotStep()) == all[..2];
  }

  lemma SecondFits(c: Config, domain: Dict, event: string)
    requires c.ledgerCap == 2 && LedgerShaped(domain, "tool")
    requires Entries(domain, "tool").Keys == {"a", "b"} && Stamped(Entries(domain, "tool"), 0)
    ensures Updatable(c, domain, SECOND, ["a", "b"], 0)
    ensures LedgerAfter(Entries(domain, "tool"), ["a", "b"], SECOND, 2, event, 0).Keys == {"a", "b", "c"}
  {
    var entries := Entries(domain, "tool");
    KeysOfTwo("a", "c");
    TwoKeys(entries);
    MergedSlots(0);
    assert SlotsOf(entries, ["a", "b"]) == [Slot("a", 0), Slot("b", 0)];
    assert Keys([Slot("a", 0)]) == {"a"};
    hide Existing, Sanitize, Latest, ReportedKeys, OldestOver, Enumerates;
  }

  lemma TwoKeys(entries: Dict)
    requires entries.Keys == {"a", "b"}
    ensures Enumerates(["a", "b"], entries)
  {
    var order := ["a", "b"];
    assert order[0] in order && order[1] in order;
  }

  /** The conditions under which the run starts: room, no ledger yet, a cap of two and a guard that lets one call
      pass. */
  ghost predicate RaceStart(c: Config, s: State) {
    PlainStart(c, s) && Tolerant(s, c.policy) && c.maxRepeats > 1 && c.ledgerCap == 2 && "tool" !in s.domain
  }

  lemma FirstTurn(c: Config, s: State, input: string, now: int, limit: nat) returns (event: string)
    requires RaceStart(c, s)
    ensures Start(c, s, input, now, limit).Some?
    ensures var s0 := Start(c, s, input, now, limit).value;
      var r := Run(c, s0, ResumeLabels(1) + Turn(0, 0, FIRST, []), false); var x := r.t.current;
      && x == s.(version := 2, counters := x.counters,
                 domain := WithLedger(s.domain, "tool", LedgerAfter(map[], [], FIRST, 2, event, 0)))
      && x.counters.steps == 0 && r.t.versions.Keys == {0, 1, 2} && r.t.versions[2].step == 0
      && r.t.steps.Keys == {0} && r.t.steps[0].observation == 0 && |r.t.observations| == 1
      && r.procs.Keys == {0, 1}
      && r.procs[1].pc.BuildContext? && r.procs[1].step == 0 && r.procs[1].steps < r.procs[1].maxSteps
      && r.procs[1].exec == s && r.procs[1].obs.Some?
  {
    hide Run, Steps, Start, Turn, LedgerAfter, WithLedger, Tolerant, Acceptable, Updatable, WithEvent, ResumeLabels;
    StartsPlain(c, s, input, now, limit);
    var s0 := Start(c, s, input, now, limit).value;
    OnlyStep(s0.t);
    Resumes(c, s0, 1, 0, false);
    var s1 := Run(c, s0, ResumeLabels(1), false);
    FirstFits(c, s.domain, "");
    assert Entries(s.domain, "tool") == map[];
    event := TurnReports(c, s1, 0, FIRST, []);
    RunSplit(c, s0, ResumeLabels(1), Turn(0, 0, FIRST, []), false);
  }

  /** A process that is behind reopens the row, and another one resumes the run there. */
  lemma ReopensAndResumes(c: Config, s: System)
    requires 1 in s.procs && 2 !in s.procs && s.t.current.status == Running
    requires var p := s.procs[1];
      && p.pc.BuildContext? && p.step == 0 && p.steps < p.maxSteps && p.obs.Some?
      && p.exec.counters.steps < p.exec.maxSteps
    requires s.t.steps.Keys == {0} && s.t.steps[0].observation == 0 && |s.t.observations| == 1
    ensures var r := Run(c, s, Steps(1, None, 1) + ResumeLabels(2), false);
      && r.t == s.t.(events := r.t.events, steps := r.t.steps) && r.t.steps.Keys == {0} && r.t.steps[0].observation == 0
      && r.procs.Keys == s.procs.Keys + {2}
      && var q := r.procs[2];
         && q.pc.BuildContext? && q.step == 0 && q.steps < q.maxSteps && q.exec == s.t.current && q.obs.Some?
         && q.recent == []
  {
    hide Run, Steps, Micro, Ordered, WithEvent, ResumeLabels;
    NoSteps(c, s, 1, None, false);
    AtBuildContext(c, s.t, s.procs[1], Reply(None));
    OneMore(c, s, 1, None, 0, false);
    var s1 := Run(c, s, Steps(1, None, 1), false);
    OnlyStep(s1.t);
    Resumes(c, s1, 2, 0, false);
    RunSplit(c, s, Steps(1, None, 1), ResumeLabels(2), false);
  }

  lemma SecondTurn(c: Config, s: System, x: State)
    requires 2 in s.procs && s.procs[2].recent == [] && c.maxRepeats > 1 && c.ledgerCap == 2
    requires var p := s.procs[2];
      && p.pc.BuildContext? && p.step == 0 && p.steps < p.maxSteps && p.obs.Some? && p.exec == s.t.current
    requires s.t.steps.Keys == {0} && s.t.versions.Keys == {0, 1, 2}
    requires var y := s.t.current;
      && y.version == 2 && y.status == Running && y.counters.steps < y.maxSteps
      && Tolerant(x, c.policy) && y == x.(version := 2, counters := y.counters, domain := y.domain)
      && LedgerShaped(y.domain, "tool") && Entries(y.domain, "tool").Keys == {"a", "b"}
      && Stamped(Entries(y.domain, "tool"), 0)
    ensures var t := Run(c, s, Turn(2, 2, SECOND, ["a", "b"]), false).t;
      && t.versions.Keys == {0, 1, 2, 3, 4} && t.versions[4].step == 0
      && Entries(t.current.domain, "tool").Keys == {"a", "b", "c"}
      && t.current.counters.steps == s.t.current.counters.steps && t.current.version == 4
  {
    hide Run, Turn, Tolerant, Acceptable, Updatable, Stamped, LedgerAfter, TurnedOver, Entries, LedgerShaped;
    StaysTolerant(x, s.t.current, c.policy);
    SecondFits(c, s.t.current.domain, "");
    var event := TurnReports(c, s, 2, SECOND, ["a", "b"]);
    SecondFits(c, s.t.current.domain, event);
    SecondTables(c, s.t, event, Run(c, s, Turn(2, 2, SECOND, ["a", "b"]), false).t);
  }

  lemma SecondTables(c: Config, t: Tables, event: string, u: Tables)
    requires c.ledgerCap == 2 && t.current.version == 2 && t.versions.Keys == {0, 1, 2} && 0 in t.steps
    requires forall k <- ["a", "b"] :: k in Entries(t.current.domain, "tool")
    requires TurnedOver(c, t, 0, SECOND, ["a", "b"], event, u)
    requires LedgerAfter(Entries(t.current.domain, "tool"), ["a", "b"], SECOND, 2, event, 0).Keys == {"a", "b", "c"}
    ensures u.versions.Keys == {0, 1, 2, 3, 4} && u.versions[4].step == 0 && u.current.version == 4
    ensures Entries(u.current.domain, "tool").Keys == {"a", "b", "c"}
    ensures u.current.counters.steps == t.current.counters.steps
  {
    hide LedgerAfter, Entries;
    LedgerOf(t.current.domain, LedgerAfter(Entries(t.current.domain, "tool"), ["a", "b"], SECOND, 2, event, 0));
  }

  lemma LedgerOf(d: Dict, m: Dict)
    ensures Entries(WithLedger(d, "tool", m), "tool") == m && LedgerShaped(WithLedger(d, "tool", m), "tool")
  {}

  lemma ThreeEntries(c: Config, s: State, input: string, now: int, limit: nat)
    requires RaceStart(c, s)
    ensures Start(c, s, input, now, limit).Some?
    ensures var s0 := Start(c, s, input, now, limit).value;
      var (t, u) := (Run(c, s0, ResumeLabels(1) + Turn(0, 0, FIRST, []), false).t, Run(c, s0, TwoReports(), false).t);
      && 2 in t.versions && t.versions[2].step == 0
      && u.versions.Keys == {0, 1, 2, 3, 4} && u.versions[4].step == 0
      && Entries(u.current.domain, "tool").Keys == {"a", "b", "c"}
  {
    hide Run, Steps, Start, Turn, Tolerant, Acceptable, ResumeLabels, Stamped, LedgerAfter, Entries, WithLedger,
      LedgerShaped, Updatable;
    var event := FirstTurn(c, s, input, now, limit);
    var s0 := Start(c, s, input, now, limit).value;
    var first, middle := ResumeLabels(1) + Turn(0, 0, FIRST, []), Steps(1, None, 1) + ResumeLabels(2);
    var s1 := Run(c, s0, first, false);
    FirstFits(c, s.domain, event);
    LedgerOf(s.domain, LedgerAfter(map[], [], FIRST, 2, event, 0));
    ReopensAndResumes(c, s1);
    SecondTurn(c, Run(c, s1, middle, false), s);
    RunSplit(c, s0, first, middle, false);
    RunSplit(c, s0, first + middle, Turn(2, 2, SECOND, ["a", "b"]), false);
  }

  lemma {:induction false} StepsArePolite(c: Config, pid: nat, d: Option<Decision>, n: nat)
    requires d.Some? ==> d.value.patch.ops == []
    ensures forall l <- Steps(pid, d, n) :: LedgerRuns.PoliteLabel(c, l, "tool")
  {
    assert ReportedKeys([]) == {};
    if n > 0 {
      StepsArePolite(c, pid, d, n - 1);
    }
  }

  lemma {:induction false} RepeatIsPolite(c: Config, pid: nat, a: Answer, n: nat)
    requires LedgerRuns.Polite(c, a, "tool")
    ensures forall l <- Repeat(pid, a, n) :: LedgerRuns.PoliteLabel(c, l, "tool")
  {
    hide LedgerRuns.Polite;
    if n > 0 {
      RepeatIsPolite(c, pid, a, n - 1);
    }
  }

  lemma TurnIsPolite(c: Config, pid: nat, version: nat, facts: seq<Report>, order: seq<string>)
    requires |ReportedKeys(facts)| <= c.ledgerCap
    ensures forall l <- Turn(pid, version, facts, order) :: LedgerRuns.PoliteLabel(c, l, "tool")
  {
    StepsArePolite(c, pid, Some(Decision(Patch(version, []), TOOL)), 3);
    StepsArePolite(c, pid, None, 1);
    RepeatIsPolite(c, pid, Reporting(facts, order), 5);
    hide LedgerRuns.PoliteLabel;
  }

  /** Every label of the run is one that the theorem about one process admits. */
  lemma AllPolite(c: Config)
    requires c.ledgerCap == 2
    ensures forall l <- TwoReports() :: LedgerRuns.PoliteLabel(c, l, "tool")
  {
    KeysOfTwo("a", "b");
    KeysOfTwo("a", "c");
    assert |{"a", "b"}| == |{"a", "c"}| == 2;
    TurnIsPolite(c, 0, 0, FIRST, []);
    TurnIsPolite(c, 2, 2, SECOND, ["a", "b"]);
    StepsArePolite(c, 1, None, 5);
    StepsArePolite(c, 1, None, 1);
    StepsArePolite(c, 2, None, 5);
    hide Steps, Turn;
  }

  lemma RaceStartExists() returns (c: Config, s: State)
    ensures RaceStart(c, s)
  {
    var limits := Apply.Limits(0, 0, 0, 0, 0, 0, 0, 0, 0, 0, 0, 0, 0);
    c := Config(2, 1, 1, 2, 1, 2, Apply.Policy(limits, text => text, state => 0, None), []);
    s := State(0, Running, ZERO, 1, "", [], "", [], [], [], [], [], [], [], [], map[], map[], [], map[], map[], None);
  }

  /** Two reports are committed at step 0, as versions 2 and 4, each within the cap of two, and the ledger ends with
      three entries. So under several processes the steps of a ledger's updates need not grow, and then the cap is not
      kept. */
  lemma TwoReportsBreakTheCap(c: Config, s: State, input: string, now: int, limit: nat)
    requires RaceStart(c, s)
    ensures Start(c, s, input, now, limit).Some?
    ensures forall l <- TwoReports() :: LedgerRuns.PoliteLabel(c, l, "tool")
    ensures var t := Run(c, Start(c, s, input, now, limit).value, TwoReports(), false).t;
      && t.versions.Keys == {0, 1, 2, 3, 4} && t.versions[2].step == t.versions[4].step == 0
      && |Entries(t.current.domain, "tool")| == 3
  {
    hide Run, Steps, Start, Turn, Tolerant, Acceptable, ResumeLabels, Entries;
    ThreeEntries(c, s, input, now, limit);
    var first := ResumeLabels(1) + Turn(0, 0, FIRST, []);
    var rest := Steps(1, None, 1) + ResumeLabels(2) + Turn(2, 2, SECOND, ["a", "b"]);
    VersionStays(c, s, input, now, limit, first, rest);
    assert first + rest == TwoReports();
    ThreeKeys(Entries(Run(c, Start(c, s, input, now, limit).value, TwoReports(), false).t.current.domain, "tool"));
    AllPolite(c);
  }

  lemma ThreeKeys(m: Dict)
    requires m.Keys == {"a", "b", "c"}
    ensures |m| == 3
  {
    assert |m| == |m.Keys| == |{"a", "b", "c"}|;
  }

  /** A committed version stays as it is over the rest of the run. */
  lemma VersionStays(c: Config, s: State, input: string, now: int, limit: nat, xs: seq<Label>, ys: seq<Label>)
    requires Blank(s) && Start(c, s, input, now, limit).Some?
    ensures var s0 := Start(c, s, input, now, limit).value;
      var (t, u) := (Run(c, s0, xs, false).t, Run(c, s0, xs + ys, false).t);
      forall v <- t.versions :: v in u.versions && u.versions[v] == t.versions[v]
  {
    hide Start, Blank, SystemOk, Run;
    StartOk(c, s, input, now, limit);
    var s0 := Start(c, s, input, now, limit).value;
    RunKeeps(c, s0, xs, false);
    RunKeeps(c, Run(c, s0, xs, false), ys, false);
    RunSplit(c, s0, xs, ys, false);
  }
}
