/** Theorems about every run in which one process at a time is alive. */
module SoloRuns {
  import opened Domain
  import opened State
  import opened Tables
  import opened Lifecycle
  import opened Solo
  import opened Versions
  import opened Runs
  import ApplyFrame
  import Apply

  /** At most one process is alive and it fits the tables. */
  ghost predicate OneProcess(s: System) {
    && InOrder(s.t, s.invoked)
    && (forall p, q :: p in s.procs && q in s.procs ==> p == q)
    && (forall pid <- s.procs :: Together(s.t, s.procs[pid], s.invoked))
  }

  lemma StepStaysAlone(c: Config, s: System, pid: nat, a: Answer)
    requires OneProcess(s)
    ensures OneProcess(Do(c, s, Step(pid, a), true))
  {
    hide InOrder, Together, Micro, Ordered, Fits;
    if pid in s.procs && Ordered(s.procs[pid], a) {
      MicroTogether(c, s.t, s.procs[pid], a, s.invoked);
      var m := Micro(c, s.t, s.procs[pid], a);
      TogetherInOrder(m.tables, m.proc, InvokedAfter(s.procs[pid], s.invoked));
    }
  }

  lemma TogetherInOrder(t: Tables, p: Proc, invoked: seq<nat>)
    requires Together(t, p, invoked)
    ensures InOrder(t, invoked)
  {
    hide InOrder, Fits;
  }

  lemma ResumeStaysAlone(c: Config, s: System, pid: nat, human: Option<string>, limit: nat)
    requires OneProcess(s)
    ensures OneProcess(Do(c, s, Resume(pid, human, limit), true))
  {
    hide InOrder;
  }

  lemma DoStaysAlone(c: Config, s: System, l: Label)
    requires OneProcess(s)
    ensures OneProcess(Do(c, s, l, true))
  {
    match l
    case Step(pid, a) =>
      hide OneProcess, Do;
      StepStaysAlone(c, s, pid, a);
    case CrashOf(pid) =>
      hide InOrder, Together, Micro;
    case Resume(pid, human, limit) =>
      hide OneProcess, Do;
      ResumeStaysAlone(c, s, pid, human, limit);
  }

  lemma {:induction false} RunStaysAlone(c: Config, s: System, labels: seq<Label>)
    requires OneProcess(s)
    ensures OneProcess(Run(c, s, labels, true))
    decreases |labels|
  {
    hide OneProcess, Do;
    if labels != [] {
      RunStaysAlone(c, s, labels[..|labels|-1]);
      DoStaysAlone(c, Run(c, s, labels[..|labels|-1], true), labels[|labels|-1]);
    }
  }

  lemma StartAlone(c: Config, s: State, input: string, now: int, limit: nat)
    requires Blank(s) && Start(c, s, input, now, limit).Some?
    ensures OneProcess(Start(c, s, input, now, limit).value)
  {
    hide Apply.ApplyPatch, Linked, PatchesMatch, Numbered, Seeded, WithEvent, Tidy, Grows;
    CreatedOk(c, s, input);
    var t := CreatedTables(s, input);
    SeededOk(c, s, t, now);
    SeededQuiet(c, s, t, now);
  }

  lemma SeededQuiet(c: Config, s: State, t: Tables, now: int)
    requires Seeded(c, s, t, now).Some? && Blank(s) && t.current == s
    ensures Seeded(c, s, t, now).value.execs == t.execs && Active(Seeded(c, s, t, now).value.current.status)
  {
    if c.initial != [] {
      ApplyFrame.PatchFrame(s, Patch(0, c.initial), None, c.policy.(schema := None), now);
      hide Apply.ApplyPatch;
    }
  }

  // ---- the theorems ----

  /** The step rows are exactly 0 to the committed step counter n, every row before n is closed and row n is not; no
      step has two tool executions and none invoked its tool twice; an execution that is still open belongs to step
      n, which is then in the dispatched phase. */
  ghost predicate StepProtocol(t: Tables, invoked: seq<nat>) {
    var n := t.current.counters.steps;
    && (forall k: nat :: k in t.steps <==> k <= n)
    && (forall k <- t.steps :: t.steps[k].phase.Closed? <==> k < n)
    && (forall i, j :: 0 <= i < j < |t.execs| ==> t.execs[i].step != t.execs[j].step)
    && (forall i, j :: 0 <= i < j < |invoked| ==> invoked[i] != invoked[j])
    && (forall e <- t.execs :: e.status.Started? ==> e.step == n && t.steps[n].phase.ActionDispatched?)
  }

  lemma OrderMeansProtocol(t: Tables, invoked: seq<nat>)
    requires InOrder(t, invoked)
    ensures StepProtocol(t, invoked)
  {}

  /** The step protocol holds after any run with any crashes and resumes. */
  lemma OneProcessAtATime(c: Config, s: State, input: string, now: int, limit: nat, labels: seq<Label>)
    requires Blank(s) && Start(c, s, input, now, limit).Some?
    ensures var r := Run(c, Start(c, s, input, now, limit).value, labels, true); StepProtocol(r.t, r.invoked)
  {
    StartAlone(c, s, input, now, limit);
    hide Start, Run, Blank, Together, StepProtocol, InOrder;
    var r := Run(c, Start(c, s, input, now, limit).value, labels, true);
    RunStaysAlone(c, Start(c, s, input, now, limit).value, labels);
    OrderMeansProtocol(r.t, r.invoked);
  }

  /** Re-entering the decision after its patch was committed always ends in a rejection. */
  lemma RedecidingIsRejected(c: Config, t: Tables, p: Proc, a: Answer, invoked: seq<nat>)
    requires Together(t, p, invoked) && p.pc.ApplyDecision?
    requires var phase := t.steps[Latest(t)].phase; phase.StateCommitted? || phase.ActionPending?
    ensures ApplyDecisionStep(c, t, p, a) == Go(t, p, RecordRejection)
  {
    hide ExecFacts, InvokedOnce;
  }

  /** A tool step whose decision is committed but whose action is not recorded yet is dispatched by a resume exactly
      if its row carries an action id, as an earlier, failed pass over the same step leaves it behind; without one
      the decision is re-entered and, by the lemma above, rejected. */
  lemma CommittedToolStepIsDispatchedIff(c: Config, t: Tables, p: Proc, a: Answer, invoked: seq<nat>)
    requires Together(t, p, invoked) && p.pc.Enter? && t.steps[Latest(t)].phase.StateCommitted?
    requires IsToolCall(t.steps[Latest(t)].decision.value) && t.steps[Latest(t)].observation < |t.observations|
    ensures var m := EnterStep(t, p);
      if t.steps[Latest(t)].actionId.Some? then m.proc.pc.ExecuteAction?
      else m.proc.pc.ApplyDecision? && m.tables == t && ApplyDecisionStep(c, t, m.proc, a).proc.pc.RecordRejection?
  {
    hide ExecFacts, InvokedOnce;
    EnterTogether(t, p, invoked);
    var m := EnterStep(t, p);
    if m.proc.pc.ApplyDecision? {
      RedecidingIsRejected(c, m.tables, m.proc, a, invoked);
    }
  }

  // ---- ended runs ----

  /** Nothing a process does in an ended run commits anything. */
  lemma EndedStepCommitsNothing(c: Config, t: Tables, p: Proc, a: Answer, invoked: seq<nat>)
    requires Together(t, p, invoked) && Ordered(p, a) && t.current.status in TERMINAL
    ensures var u := Micro(c, t, p, a).tables; u.current == t.current && u.versions == t.versions
  {
    hide Apply.ApplyPatch, InOrder;
    EndedPcs(t, p, invoked);
  }

  lemma EndedPcs(t: Tables, p: Proc, invoked: seq<nat>)
    requires Together(t, p, invoked) && t.current.status in TERMINAL
    ensures p.pc.LoadState? || p.pc.LogEnd? || p.pc.Stopped? || (p.pc.Finalize? && p.exec.status == p.pc.status)
  {
    hide InOrder;
  }

  lemma EndedDoCommitsNothing(c: Config, s: System, l: Label)
    requires OneProcess(s) && s.t.current.status in TERMINAL
    ensures var r := Do(c, s, l, true); r.t.current == s.t.current && r.t.versions == s.t.versions
  {
    hide InOrder, Together, Micro, Ordered;
    if l.Step? && l.pid in s.procs && Ordered(s.procs[l.pid], l.answer) {
      EndedStepCommitsNothing(c, s.t, s.procs[l.pid], l.answer, s.invoked);
    }
  }

  /** Completed and failed are final: whatever is stepped, crashed or resumed afterwards, the state and the version
      history stay as they are. */
  lemma {:induction false} EndedRunStaysEnded(c: Config, s: System, labels: seq<Label>)
    requires OneProcess(s) && s.t.current.status in TERMINAL
    ensures var r := Run(c, s, labels, true); r.t.current == s.t.current && r.t.versions == s.t.versions
    decreases |labels|
  {
    hide OneProcess, Do;
    if labels != [] {
      EndedRunStaysEnded(c, s, labels[..|labels|-1]);
      RunStaysAlone(c, s, labels[..|labels|-1]);
      EndedDoCommitsNothing(c, Run(c, s, labels[..|labels|-1], true), labels[|labels|-1]);
    }
  }
}
