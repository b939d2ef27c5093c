/** How long one invocation can go on, whatever the database holds at each of its steps. */
module Bounds {
  import opened Domain
  import opened State
  import opened Tables
  import opened LoopGuard
  import opened Lifecycle
  import Apply

  /** What one step of a process meets: the tables of that moment, which others may have changed, and the world's
      answer. */
  datatype Input = Input(tables: Tables, answer: Answer)

  /** The process after a number of its own steps. */
  function After(c: Config, p: Proc, inputs: seq<Input>): Proc
    requires Fed(c, p, inputs)
    decreases |inputs|, 2
  {
    if inputs == [] then p
    else
      var last := inputs[|inputs|-1];
      Micro(c, last.tables, After(c, p, inputs[..|inputs|-1]), last.answer).proc
  }

  predicate Fed(c: Config, p: Proc, inputs: seq<Input>)
    decreases |inputs|, 1
  {
    inputs == [] || (Fed(c, p, inputs[..|inputs|-1])
                     && Ordered(After(c, p, inputs[..|inputs|-1]), inputs[|inputs|-1].answer))
  }

  // ---- the edges of the graph ----

  /** The controller fields that bound an invocation, untouched. */
  predicate Same(p: Proc, q: Proc) {
    && q.maxSteps == p.maxSteps && q.steps == p.steps && q.recent == p.recent
    && q.failures == p.failures && q.timeouts == p.timeouts && q.trips == p.trips
  }

  /** The same, but one step further. */
  predicate StepBegun(p: Proc, q: Proc) {
    && q.maxSteps == p.maxSteps && q.steps == p.steps + 1 && q.recent == p.recent
    && q.failures == p.failures && q.timeouts == p.timeouts && q.trips == p.trips
  }

  predicate OutOfBudgets(c: Config, q: Proc) {
    q.timeouts >= c.maxTimeouts || q.failures >= c.maxFailures || q.trips >= c.maxFailures
  }

  /** A failure counts once, on its own streak; what exceeds a budget ends the invocation. */
  predicate Failed(c: Config, p: Proc, kind: FailKind, q: Proc) {
    && q.maxSteps == p.maxSteps && q.steps == p.steps && q.recent == p.recent
    && (if kind.TimeoutFail? then q.timeouts == p.timeouts + 1 && q.failures == p.failures
        else q.timeouts == 0 && q.failures == p.failures + 1)
    && q.trips == p.trips + (if kind.LoopFail? then 1 else 0)
    && if OutOfBudgets(c, q) then q.pc.Finalize? else q.pc.Advance?
  }

  predicate Decided(p: Proc, q: Proc) {
    && (q.pc.Finalize? || q.pc.RetrieveMemory? || q.pc.RequestAction?)
    && q.maxSteps == p.maxSteps && q.steps == p.steps && q.recent == p.recent && q.trips == p.trips
    && q.failures == 0 && q.timeouts == 0
  }

  /** The signature a tool request is guarded by. */
  function SignatureOf(p: Proc): (sig: Option<Signature>) {
    if p.pc.RequestAction? && p.obs.Some? && CallsTool(p) then
      var call := p.decision.value.control.action;
      Some(Signature(call.tool, call.arguments, p.obs.value.content))
    else None
  }

  predicate Requested(c: Config, p: Proc, q: Proc) {
    && q.maxSteps == p.maxSteps && q.steps == p.steps
    && q.failures == p.failures && q.timeouts == p.timeouts && q.trips == p.trips
    && match SignatureOf(p)
       case None => q.recent == p.recent && (q.pc.AwaitHuman? || q.pc.Advance? || q.pc == HandleFailure(LoopFail))
       case Some(sig) =>
         && q.recent == Remembered(p.recent, sig, c.window, c.maxRepeats)
         && q.pc == if Trips(p.recent, sig, c.window, c.maxRepeats) then HandleFailure(LoopFail) else ExecuteAction
  }

  /** Where a step of a process can lead, and what it does to the controller fields; a crash can happen in most
      nodes. */
  predicate Edge(c: Config, p: Proc, q: Proc) {
    || (Same(p, q) && q.pc.Stopped?)
    || match p.pc
       case LoadState(_) => Same(p, q) && q.pc.LoadStep?
       case LoadStep(_) => Same(p, q) && q.pc.LogResume?
       case LogResume(_) => Same(p, q) && q.pc.Dispatch?
       case Dispatch(_) => Same(p, q) && (q.pc.Enter? || q.pc.Advance?)
       case Enter =>
         && StepBegun(p, q)
         && (q.pc.BuildContext? || q.pc.ApplyDecision? || q.pc.RetrieveMemory? || q.pc.ExecuteAction?
             || q.pc.CaptureObservation? || q.pc.Stopped?)
       case BuildContext => Same(p, q) && (q.pc.Finalize? || (q.pc.Reason? && p.steps < p.maxSteps))
       case Reason => Same(p, q) && (q.pc.ApplyDecision? || q.pc.HandleFailure?)
       case ApplyDecision => Same(p, q) && (q.pc.RecordRejection? || q.pc.Commit?)
       case Commit(_, _) => (Same(p, q) && q.pc.RecordStale?) || Decided(p, q)
       case RecordStale => Same(p, q) && q.pc.ReloadStale?
       case ReloadStale => Same(p, q) && q.pc.Finalize?
       case RecordRejection => Same(p, q) && q.pc.HandleFailure?
       case RequestAction => Requested(c, p, q)
       case RetrieveMemory => StepBegun(p, q) && q.pc.BuildContext?
       case ExecuteAction => Same(p, q) && q.pc.RunTool?
       case RunTool(_) => Same(p, q) && q.pc.CaptureObservation?
       case CaptureObservation => Same(p, q) && q.pc.UpdateLedger?
       case UpdateLedger(_) => Same(p, q) && q.pc.Advance?
       case Advance(_, _) => StepBegun(p, q) && q.pc.BuildContext?
       case AwaitHuman => Same(p, q) && q.pc.Finalize?
       case HandleFailure(kind) => Failed(c, p, kind, q)
       case Finalize(_) => Same(p, q) && q.pc.LogEnd?
       case LogEnd(_) => false
       case Stopped => false
  }

  lemma MicroIsEdge(c: Config, t: Tables, p: Proc, a: Answer)
    requires Ordered(p, a)
    ensures Edge(c, p, Micro(c, t, p, a).proc)
  {
    hide Edge, LoadStateStep, LoadStepStep, BuildContextStep, ReasonStep, ApplyDecisionStep, CommitStep,
      RecordRejectionStep,
      RequestActionStep, RetrieveMemoryStep, ExecuteActionStep, RunToolStep, CaptureObservationStep, UpdateLedgerStep,
      AdvanceStep, AwaitHumanStep, HandleFailureStep, FinalizeStep, DispatchStep, EnterStep, RecordStaleStep,
          ReloadStaleStep, Log;
    match p.pc {
      case LoadState(_) => LoadEdges(c, t, p);
      case LoadStep(_) => LoadEdges(c, t, p);
      case LogResume(human) => LogEdge(c, t, p, Dispatch(human));
      case Dispatch(_) => DispatchEdge(c, t, p);
      case Enter => EnterEdge(c, t, p);
      case BuildContext => BuildContextEdge(c, t, p);
      case Reason => ReasonEdge(c, t, p, a);
      case ApplyDecision => ApplyDecisionEdge(c, t, p, a);
      case Commit(_, _) => CommitEdge(c, t, p);
      case RecordStale => RejectionEdges(c, t, p);
      case ReloadStale => RejectionEdges(c, t, p);
      case RecordRejection => RejectionEdges(c, t, p);
      case RequestAction => RequestActionEdge(c, t, p, a);
      case RetrieveMemory => RetrieveMemoryEdge(c, t, p);
      case ExecuteAction => ToolEdges(c, t, p, a);
      case RunTool(_) => ToolEdges(c, t, p, a);
      case CaptureObservation => ToolEdges(c, t, p, a);
      case UpdateLedger(_) => UpdateLedgerEdge(c, t, p, a);
      case Advance(_, _) => AdvanceEdge(c, t, p);
      case AwaitHuman => EndEdges(c, t, p);
      case HandleFailure(_) => HandleFailureEdge(c, t, p, a);
      case Finalize(_) => EndEdges(c, t, p);
      case LogEnd(_) => LogEdge(c, t, p, Stopped);
      case Stopped => LogEdge(c, t, p, Stopped);
    }
  }

  lemma LogEdge(c: Config, t: Tables, p: Proc, pc: Pc)
    requires pc.Stopped? || (p.pc.LogResume? && pc.Dispatch?)
    ensures Edge(c, p, p.(pc := pc))
  {}

  lemma LoadEdges(c: Config, t: Tables, p: Proc)
    ensures p.pc.LoadState? ==> Edge(c, p, LoadStateStep(t, p).proc)
    ensures p.pc.LoadStep? ==> Edge(c, p, LoadStepStep(t, p).proc)
  {}

  lemma DispatchEdge(c: Config, t: Tables, p: Proc)
    requires p.pc.Dispatch?
    ensures Edge(c, p, DispatchStep(t, p).proc)
  {
    hide CommitState, Log;
  }

  lemma EnterEdge(c: Config, t: Tables, p: Proc)
    requires p.pc.Enter?
    ensures Edge(c, p, EnterStep(t, p).proc)
  {
    hide Interrupt, FindOpenExec;
  }

  lemma BuildContextEdge(c: Config, t: Tables, p: Proc)
    requires p.pc.BuildContext?
    ensures Edge(c, p, BuildContextStep(t, p).proc)
  {
    hide MarkPhase, Log;
  }

  lemma ReasonEdge(c: Config, t: Tables, p: Proc, a: Answer)
    requires p.pc.Reason?
    ensures Edge(c, p, ReasonStep(t, p, a).proc)
  {
    hide RecordReply;
  }

  lemma ApplyDecisionEdge(c: Config, t: Tables, p: Proc, a: Answer)
    requires p.pc.ApplyDecision?
    ensures Edge(c, p, ApplyDecisionStep(c, t, p, a).proc)
  {
    hide Apply.ApplyPatch;
  }

  lemma CommitEdge(c: Config, t: Tables, p: Proc)
    requires p.pc.Commit?
    ensures Edge(c, p, CommitStep(t, p).proc)
  {
    hide CommitState, RecordPatch, Log, UpdateStep, ArchiveItems;
  }

  lemma RejectionEdges(c: Config, t: Tables, p: Proc)
    ensures p.pc.RecordStale? ==> Edge(c, p, RecordStaleStep(t, p).proc)
    ensures p.pc.ReloadStale? ==> Edge(c, p, ReloadStaleStep(t, p).proc)
    ensures p.pc.RecordRejection? ==> Edge(c, p, RecordRejectionStep(t, p).proc)
  {
    hide RecordPatch, Log;
  }

  lemma RequestActionEdge(c: Config, t: Tables, p: Proc, a: Answer)
    requires p.pc.RequestAction?
    ensures Edge(c, p, RequestActionStep(c, t, p, a).proc)
  {
    hide Trips, Remembered, SaveRequest;
  }

  lemma NextStepEdge(t0: Tables, t: Tables, p: Proc, obs: Observation)
    ensures var q := NextStep(t0, t, p, obs).proc;
      (Same(p, q) && q.pc.Stopped?) || (StepBegun(p, q) && q.pc.BuildContext?)
  {
    hide CommitState, CreateStep;
  }

  lemma RetrieveMemoryEdge(c: Config, t: Tables, p: Proc)
    requires p.pc.RetrieveMemory?
    ensures Edge(c, p, RetrieveMemoryStep(t, p).proc)
  {
    hide NextStep, MarkPhase, Log;
    if !(p.obs.None? || p.decision.None? || !p.decision.value.control.Query?) {
      var p1 := p.(exec := Count1(p.exec, (k: Counters) => k.(retrievals := k.retrievals + 1)));
      NextStepEdge(t, MarkPhase(Log(t, p.step, MemoryRetrieval), p.step, Closed), p1, p.obs.value);
    }
  }

  lemma AdvanceEdge(c: Config, t: Tables, p: Proc)
    requires p.pc.Advance?
    ensures Edge(c, p, AdvanceStep(t, p).proc)
  {
    hide NextStep, MarkPhase, Log, SaveObservation;
    var obs := Observation(|t.observations|, p.pc.kind, p.pc.content);
    NextStepEdge(t, MarkPhase(SaveObservation(Log(t, p.step + 1, ObservationEvent), obs.kind, obs.content), p.step,
                              Closed), p, obs);
  }

  lemma ToolEdges(c: Config, t: Tables, p: Proc, a: Answer)
    ensures p.pc.ExecuteAction? ==> Edge(c, p, ExecuteActionStep(t, p).proc)
    ensures p.pc.RunTool? ==> Edge(c, p, RunToolStep(t, p, a).proc)
    ensures p.pc.CaptureObservation? ==> Edge(c, p, CaptureObservationStep(t, p).proc)
  {
    hide MarkPhase, Log, StartExec, CloseExec, ClosedEvent, LastEvent;
  }

  lemma UpdateLedgerEdge(c: Config, t: Tables, p: Proc, a: Answer)
    requires p.pc.UpdateLedger? && Ordered(p, a)
    ensures Edge(c, p, UpdateLedgerStep(c, t, p, a).proc)
  {
    hide Apply.ApplyPatch, LedgerPatch, LedgerReadable, PairList, Ledger.Raises, CommitState, RecordPatch, Log;
  }

  lemma HandleFailureEdge(c: Config, t: Tables, p: Proc, a: Answer)
    requires p.pc.HandleFailure?
    ensures Edge(c, p, HandleFailureStep(c, t, p, a).proc)
  {
    hide MarkPhase, Log;
  }

  lemma EndEdges(c: Config, t: Tables, p: Proc)
    ensures p.pc.AwaitHuman? ==> Edge(c, p, AwaitHumanStep(t, p).proc)
    ensures p.pc.Finalize? ==> Edge(c, p, FinalizeStep(t, p).proc)
  {
    hide MarkPhase, Log, CommitState;
  }

  // ---- termination ----

  predicate Loading(pc: Pc) {
    pc.LoadState? || pc.LoadStep? || pc.LogResume? || pc.Dispatch? || pc.Enter?
  }

  predicate Ending(pc: Pc) {
    pc.Finalize? || pc.LogEnd? || pc.Stopped?
  }

  /** The node ranks within one step. */
  function Rank(pc: Pc): nat {
    match pc
    case LoadState(_) => 16
    case LoadStep(_) => 15
    case LogResume(_) => 14
    case Dispatch(_) => 13
    case Enter => 12
    case BuildContext => 11
    case Reason => 10
    case ApplyDecision => 9
    case Commit(_, _) => 8
    case RecordRejection => 8
    case RequestAction => 7
    case ExecuteAction => 6
    case HandleFailure(_) => 6
    case AwaitHuman => 6
    case RecordStale => 6
    case RetrieveMemory => 6
    case RunTool(_) => 5
    case ReloadStale => 5
    case CaptureObservation => 4
    case UpdateLedger(_) => 3
    case Advance(_, _) => 2
    case Finalize(_) => 2
    case LogEnd(_) => 1
    case Stopped => 0
  }

  /** One more step than the budget can begin, but it goes no further than the context builder. */
  predicate InBudget(p: Proc) {
    && 1 <= p.maxSteps && p.steps <= p.maxSteps + 1
    && (p.steps == p.maxSteps + 1 ==> p.pc.BuildContext? || Ending(p.pc))
    && (p.pc.Reason? ==> p.steps < p.maxSteps)
    && (Loading(p.pc) ==> p.steps == 0)
  }

  /** Remaining steps first, node rank second. */
  function Measure(p: Proc): nat
    requires InBudget(p)
  {
    (p.maxSteps + 1 - p.steps) * 20 + Rank(p.pc)
  }

  predicate Descends(p: Proc, q: Proc)
    requires InBudget(p)
  {
    q.maxSteps == p.maxSteps && InBudget(q) && Measure(q) < Measure(p)
  }

  /** Every step of a process that has not stopped descends. */
  lemma EdgeDescends(c: Config, p: Proc, q: Proc)
    requires InBudget(p) && !p.pc.Stopped? && Edge(c, p, q)
    ensures Descends(p, q)
  {}

  lemma {:induction false} StaysInBudget(c: Config, p: Proc, inputs: seq<Input>)
    requires InBudget(p) && Fed(c, p, inputs)
    ensures var q := After(c, p, inputs);
      InBudget(q) && (q.pc.Stopped? || Measure(q) + |inputs| <= Measure(p))
    decreases |inputs|
  {
    hide Micro, Ordered, InBudget, Measure, Edge, Descends;
    if inputs != [] {
      var last := inputs[|inputs|-1];
      var q := After(c, p, inputs[..|inputs|-1]);
      StaysInBudget(c, p, inputs[..|inputs|-1]);
      MicroIsEdge(c, last.tables, q, last.answer);
      Descended(c, q, After(c, p, inputs));
    }
  }

  lemma Descended(c: Config, p: Proc, q: Proc)
    requires InBudget(p) && Edge(c, p, q)
    ensures InBudget(q) && (if p.pc.Stopped? then q.pc.Stopped? else Measure(q) < Measure(p))
  {
    if !p.pc.Stopped? {
      EdgeDescends(c, p, q);
    }
  }

  /** Every invocation, fresh or resumed, has stopped after at most `20 * (limit + 2)` steps, whatever other
      processes do to the database and whatever the model and the tools answer. */
  lemma InvocationEnds(c: Config, pc: Pc, s: State, obs: Option<Observation>, limit: nat, inputs: seq<Input>)
    requires pc.LoadState? || pc.BuildContext?
    requires var p := NewProc(pc, s, obs, limit); Fed(c, p, inputs) && |inputs| >= 20 * (p.maxSteps + 2)
    ensures After(c, NewProc(pc, s, obs, limit), inputs).pc.Stopped?
  {
    hide After, Fed, Edge;
    StaysInBudget(c, NewProc(pc, s, obs, limit), inputs);
  }

  // ---- model calls ----

  /** How many of the steps taken were model calls. */
  function Calls(c: Config, p: Proc, inputs: seq<Input>): nat
    requires Fed(c, p, inputs)
    decreases |inputs|
  {
    if inputs == [] then 0
    else Calls(c, p, inputs[..|inputs|-1]) + if After(c, p, inputs[..|inputs|-1]).pc.Reason? then 1 else 0
  }

  /** How many model calls the invocation can still make. */
  function CallsLeft(p: Proc): nat
    requires InBudget(p)
  {
    if Ending(p.pc) || p.steps >= p.maxSteps then 0
    else if p.pc.BuildContext? || p.pc.Reason? then p.maxSteps - p.steps
    else p.maxSteps - p.steps - 1
  }

  lemma EdgeSpendsCalls(c: Config, p: Proc, q: Proc)
    requires InBudget(p) && InBudget(q) && Edge(c, p, q)
    ensures CallsLeft(q) + (if p.pc.Reason? then 1 else 0) <= CallsLeft(p)
  {}

  lemma {:induction false} CallsAreBounded(c: Config, p: Proc, inputs: seq<Input>)
    requires InBudget(p) && Fed(c, p, inputs)
    ensures InBudget(After(c, p, inputs))
    ensures Calls(c, p, inputs) + CallsLeft(After(c, p, inputs)) <= CallsLeft(p)
    decreases |inputs|
  {
    hide Micro, Ordered, InBudget, Edge, CallsLeft, Measure;
    if inputs != [] {
      var last := inputs[|inputs|-1];
      var q := After(c, p, inputs[..|inputs|-1]);
      CallsAreBounded(c, p, inputs[..|inputs|-1]);
      StaysInBudget(c, p, inputs);
      MicroIsEdge(c, last.tables, q, last.answer);
      EdgeSpendsCalls(c, q, After(c, p, inputs));
    }
  }

  /** A started run makes at most `max_steps` model calls before it stops; a resumed one, which has used up a step by
      entering, at most one fewer. */
  lemma ModelCallsAreBounded(c: Config, pc: Pc, s: State, obs: Option<Observation>, limit: nat, inputs: seq<Input>)
    requires pc.LoadState? || pc.BuildContext?
    requires Fed(c, NewProc(pc, s, obs, limit), inputs)
    ensures var p := NewProc(pc, s, obs, limit);
      Calls(c, p, inputs) <= if pc.BuildContext? then p.maxSteps else p.maxSteps - 1
  {
    hide After, Fed, Edge, Calls;
    CallsAreBounded(c, NewProc(pc, s, obs, limit), inputs);
  }

  // ---- failing steps ----

  /** Failing steps since the last decision that was committed. */
  function FailsSinceCommit(c: Config, p: Proc, inputs: seq<Input>): nat
    requires Fed(c, p, inputs)
    decreases |inputs|
  {
    if inputs == [] then 0
    else
      var before := inputs[..|inputs|-1];
      var q := After(c, p, before);
      if q.pc.Commit? && !(After(c, p, inputs).pc.RecordStale? || After(c, p, inputs).pc.Stopped?) then 0
      else FailsSinceCommit(c, p, before) + if q.pc.HandleFailure? then 1 else 0
  }

  function Spent(c: Config, p: Proc): nat {
    p.failures * c.maxTimeouts + p.timeouts
  }

  /** While the invocation goes on, every failure budget has something left. */
  predicate Solvent(c: Config, p: Proc) {
    && p.failures <= c.maxFailures && p.timeouts <= c.maxTimeouts && p.trips <= c.maxFailures
    && (p.failures == c.maxFailures ==> p.timeouts == 0)
    && (!Ending(p.pc) ==> !OutOfBudgets(c, p))
  }

  lemma SpentGrows(c: Config, p: Proc, q: Proc)
    requires p.timeouts < c.maxTimeouts
    requires (q.failures == p.failures && q.timeouts == p.timeouts + 1)
      || (q.failures == p.failures + 1 && q.timeouts == 0)
    ensures Spent(c, p) + 1 <= Spent(c, q)
  {
    assert (p.failures + 1) * c.maxTimeouts == p.failures * c.maxTimeouts + c.maxTimeouts;
  }

  lemma SpentBounded(c: Config, p: Proc)
    requires Solvent(c, p)
    ensures Spent(c, p) <= c.maxFailures * c.maxTimeouts
  {
    if p.failures < c.maxFailures {
      assert (p.failures + 1) * c.maxTimeouts == p.failures * c.maxTimeouts + c.maxTimeouts;
      assert (c.maxFailures - p.failures - 1) * c.maxTimeouts >= 0;
      assert c.maxFailures * c.maxTimeouts == (p.failures + 1) * c.maxTimeouts
          + (c.maxFailures - p.failures - 1) * c.maxTimeouts;
    }
  }

  lemma EdgeStaysSolvent(c: Config, p: Proc, q: Proc)
    requires Solvent(c, p) && Edge(c, p, q) && c.maxFailures >= 1 && c.maxTimeouts >= 1
    ensures Solvent(c, q)
  {}

  lemma EdgeSpends(c: Config, p: Proc, q: Proc)
    requires Solvent(c, p) && Edge(c, p, q) && c.maxFailures >= 1 && c.maxTimeouts >= 1
    ensures Spent(c, p) + (if p.pc.HandleFailure? && !(Same(p, q) && q.pc.Stopped?) then 1 else 0) <= Spent(c, q)
         || (p.pc.Commit? && !q.pc.RecordStale? && !q.pc.Stopped?)
  {
    if p.pc.HandleFailure? && !(Same(p, q) && q.pc.Stopped?) {
      SpentGrows(c, p, q);
    } else if !(p.pc.Commit? && !q.pc.RecordStale? && !q.pc.Stopped?) {
      assert q.failures == p.failures && q.timeouts == p.timeouts;
    }
  }

  lemma HandleFailureGoesOn(c: Config, t: Tables, p: Proc, a: Answer)
    requires p.pc.HandleFailure? && Ordered(p, a)
    ensures !Micro(c, t, p, a).proc.pc.Stopped?
  {
    hide MarkPhase, Log;
  }

  lemma {:induction false} StaysSolvent(c: Config, p: Proc, inputs: seq<Input>)
    requires Solvent(c, p) && Fed(c, p, inputs) && c.maxFailures >= 1 && c.maxTimeouts >= 1 && Spent(c, p) == 0
    ensures Solvent(c, After(c, p, inputs))
    ensures FailsSinceCommit(c, p, inputs) <= Spent(c, After(c, p, inputs))
    decreases |inputs|
  {
    hide Micro, Ordered, Solvent, Edge, Spent, Same;
    if inputs != [] {
      var last := inputs[|inputs|-1];
      var q := After(c, p, inputs[..|inputs|-1]);
      StaysSolvent(c, p, inputs[..|inputs|-1]);
      MicroIsEdge(c, last.tables, q, last.answer);
      EdgeStaysSolvent(c, q, After(c, p, inputs));
      EdgeSpends(c, q, After(c, p, inputs));
      if q.pc.HandleFailure? {
        HandleFailureGoesOn(c, last.tables, q, last.answer);
      }
    }
  }

  /** Between two committed decisions of one invocation there are at most `maxFailures * maxTimeouts` failing steps,
      and in the whole invocation at most `maxFailures` trips of the loop guard. */
  lemma FailuresAreBounded(c: Config, pc: Pc, s: State, obs: Option<Observation>, limit: nat, inputs: seq<Input>)
    requires (pc.LoadState? || pc.BuildContext?) && c.maxFailures >= 1 && c.maxTimeouts >= 1
    requires Fed(c, NewProc(pc, s, obs, limit), inputs)
    ensures var p := NewProc(pc, s, obs, limit);
      && FailsSinceCommit(c, p, inputs) <= c.maxFailures * c.maxTimeouts
      && After(c, p, inputs).trips <= c.maxFailures
  {
    hide After, Fed, Edge, FailsSinceCommit;
    var p := NewProc(pc, s, obs, limit);
    StaysSolvent(c, p, inputs);
    SpentBounded(c, After(c, p, inputs));
  }

  // ---- the loop guard inside the lifecycle ----

  /** The tool actions that passed the guard since it last tripped, oldest first. */
  function PassedSinceTrip(c: Config, p: Proc, inputs: seq<Input>): seq<Signature>
    requires Fed(c, p, inputs)
    decreases |inputs|
  {
    if inputs == [] then []
    else
      var before := inputs[..|inputs|-1];
      var q := After(c, p, before);
      var passed := PassedSinceTrip(c, p, before);
      if After(c, p, inputs).pc.Stopped? then passed
      else
        match SignatureOf(q)
        case None => passed
        case Some(sig) => if After(c, p, inputs).pc.ExecuteAction? then passed + [sig] else []
  }

  lemma EdgeKeepsRecent(c: Config, p: Proc, q: Proc)
    requires Edge(c, p, q)
    ensures SignatureOf(p).None? || q.pc.Stopped? ==> q.recent == p.recent
    ensures SignatureOf(p).Some? && !q.pc.Stopped? ==>
      var sig := SignatureOf(p).value;
      q.recent == Remembered(p.recent, sig, c.window, c.maxRepeats)
          && (q.pc.ExecuteAction? <==> !Trips(p.recent, sig, c.window, c.maxRepeats))
  {
    hide Remembered, Trips;
  }

  /** The guard's memory is the window over what has passed, and everything that passed did so rightfully. */
  lemma {:induction false} GuardRemembersWhatPassed(c: Config, p: Proc, inputs: seq<Input>)
    requires Fed(c, p, inputs) && p.recent == []
    ensures var passed := PassedSinceTrip(c, p, inputs);
      AllPassed(passed, c.window, c.maxRepeats) && After(c, p, inputs).recent == Memory(passed, c.window, c.maxRepeats)
    decreases |inputs|
  {
    hide Micro, Ordered, Edge, Trips, Remembered, SignatureOf;
    if inputs != [] {
      var last := inputs[|inputs|-1];
      var before := inputs[..|inputs|-1];
      var q := After(c, p, before);
      GuardRemembersWhatPassed(c, p, before);
      MicroIsEdge(c, last.tables, q, last.answer);
      EdgeKeepsRecent(c, q, After(c, p, inputs));
      if SignatureOf(q).Some? {
        OneMorePassed(PassedSinceTrip(c, p, before), SignatureOf(q).value, c.window, c.maxRepeats);
      }
    }
  }

  lemma {:induction false} OneMorePassed(passed: seq<Signature>, sig: Signature, window: nat, repeats: nat)
    requires AllPassed(passed, window, repeats)
    ensures !Trips(Memory(passed, window, repeats), sig, window, repeats) ==>
      && AllPassed(passed + [sig], window, repeats)
      && Memory(passed + [sig], window, repeats) == Remembered(Memory(passed, window, repeats), sig, window, repeats)
    ensures Trips(Memory(passed, window, repeats), sig, window, repeats) ==>
      Remembered(Memory(passed, window, repeats), sig, window, repeats) == []
  {
    assert (passed + [sig])[..|passed|] == passed;
  }

  /** Between two trips of one invocation, any `window` consecutive tool actions that were let through contain every
      signature fewer than `maxRepeats` times. */
  lemma NoLoopGetsThrough(c: Config, p: Proc, inputs: seq<Input>, lo: nat, hi: nat, sig: Signature)
    requires Fed(c, p, inputs) && p.recent == [] && c.maxRepeats > 0
    requires var passed := PassedSinceTrip(c, p, inputs); lo <= hi <= |passed| && hi - lo <= c.window
    ensures Count(PassedSinceTrip(c, p, inputs)[lo..hi], sig) < c.maxRepeats
  {
    hide After, Fed, PassedSinceTrip, Edge;
    GuardRemembersWhatPassed(c, p, inputs);
    NoRepeatsInAnyWindow(PassedSinceTrip(c, p, inputs), c.window, c.maxRepeats, lo, hi, sig);
  }
}
