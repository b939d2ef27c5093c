# The mnestic runtime, verified

A Dafny model of the durable agent-run protocol of mnestic and of what runs on top of it, with proofs about every run,
every patch and every tool result. `dafny verify dfyconfig.toml` checks all of it.

A run of mnestic is a row of transactions over a handful of tables: archive events, state versions, patch records, step
rows, tool executions. A process can die between any two of them and another one can pick the run up; several can be at
work at once, kept apart only by a compare-and-set on a version number. On top of that stands `apply_patch`, which turns a
model's proposed operations into the next state or refuses them as a whole, and a bounded ledger in which the runtime keeps
the latest fact a tool reported per thing. Two benchmark environments rely on that ledger for their scripted policies to be
always right.

## How the model is built

| part | modules | form |
|---|---|---|
| domain tree and its path operations | `Domain` | functions |
| execution state, operations, `apply_patch` | `State`, `Apply`, `ApplyIds`, `ApplyKeeps`, `ApplyFrame` | specification functions and their theorems |
| `apply_patch` on a working copy | `Draft` | a class edited in place, equal to the specification |
| connection with reentrant transactions | `Transactions` | a class with a depth counter, and the meaning of nested scripts |
| tables and store | `Tables`, `Storage` | row operations as functions; a class whose methods perform them |
| nodes, `start`, `resume` | `Lifecycle`, `Nodes` | a transition system with one step per transaction; a class with the fields of the graph state whose methods take exactly those steps |
| runs of any number of processes | `Versions`, `VersionSteps`, `Runs`, `History`, `Hypotheses`, `EveryRun` | one invariant, every step, every run, and what follows for ids, citations, records and patches |
| ended runs and step rows under any number of processes | `Endings`, `Rows` | what can overturn an end or reopen a row, exactly |
| concrete runs | `Scenarios` | label sequences that reach the limits |
| runs of one process at a time | `Solo`, `SoloRuns` | what row, executions and process agree on; ended runs |
| length of an invocation | `Bounds`, `LoopGuard` | the graph's edges, a descending measure, call and failure budgets, the loop guard |
| ledger | `Ledger`, `LedgerProofs`, `LedgerFrame`, `LedgerRuns`, `LedgerRace`, `Seeding` | the loop that builds the operations, the refinement of the last-write map, both over every run of one process at a time, and a run of several that breaks the cap |
| warehouse and registry | `Warehouse`, `WarehouseSim`, `WarehouseScript`, `Words`, `Registry`, `RegistryScript` | generators and simulators as classes, ledger agreement, the policies |
| tree diff of the command line | `TreeDiff`, `PrintedDiff`, `FlatDiff`, `DiffByIds` | a method with loops that prints a recursive function; reading and replaying what it prints; which trees tell all their targets apart; lists by id |
| shared | `Text`, `Order`, `Sorting` | decimal names, string order, Python's stable sort |

A step of the transition system takes whatever the outside world decides - the clock, the model's reply, the tool's result,
texts, the iteration order of a dictionary - from an `Answer`, so the theorems hold for all of them. `Do` interleaves the
steps of any number of processes with crashes and resumes; with its last argument set, a resume needs that no process is
alive.

## What turned out otherwise than documented

- docs/CRASH_RECOVERY.md says that a step in `state_committed` is resumed by dispatching its action. A tool action without
  an action id re-enters the decision instead and is rejected as stale; it is dispatched exactly if an earlier, failed pass
  over the same step left its action id behind (`SoloRuns.CommittedToolStepIsDispatchedIff`); both occur
  (`Scenarios.CommittedWithoutAction`, `Scenarios.CommittedWithOldAction`).
- The same document says that a stale decision pauses the run. That is so for a lost compare-and-set; a decision that
  is re-entered after its commit is refused before it, and becomes a failure observation (`SoloRuns.RedecidingIsRejected`).
- Its row about a latest step that is `done` describes a case that cannot occur, under any number of processes
  (`Rows.ClosedIsNeverReentered`). Rows below the latest are all closed while one process is at work
  (`SoloRuns.OneProcessAtATime`). With several, a process that is behind still writes its phase to its row, and these are
  exactly the steps that reopen one: building the context, recording a reply, requesting or dispatching an action, asking
  the human, failing (`Rows.RowsClosedIff`, `Scenarios.ClosedRowIsReopened`).
- A terminal status is not always final. It is overturned exactly by a process that holds the current version and ends with
  another status, which is then `paused` (`Endings.EndedStepOverturnsIff`, `Endings.EndedRunStaysIff`); the loser of a
  commit becomes such a process when it reloads (`Scenarios.LoserOverturns`, `Scenarios.CompletedRunIsPaused`). So an end is
  final exactly if no continuation brings a process to a commit or to such an ending (`Scenarios.EndIsFinalIff`). With one
  process at a time there is none (`SoloRuns.EndedRunStaysEnded`).
- `resume` counts the step it enters: it makes at most one model call fewer than its limit, so a limit of 1 allows none
  (`Bounds.ModelCallsAreBounded`).
- The ledger's cap is not a cap on what one report writes: it holds exactly if the report itself is within it, and a report
  of more than cap new keys is refused outright (`LedgerProofs.CapKeptIff`, `LedgerProofs.LedgerPatchOutcome`). A patch
  that would take more than 50 operations is not even built, and that error ends the process.
- The ledger evicts by step, and with one process at a time a tool reports at most once per step. With several, a step can
  be done and reported twice. Entries of one step are evicted in the order of the dictionary, a key of the report itself
  may be among them, the report writes it again, and the cap is broken
  (`LedgerRace.TwoReportsBreakTheCap`, `LedgerRace.CapKeptExactly`).
- The warehouse generator promises that orders never become infeasible. That holds exactly if
  5 * S * max(0, C - 3) + 20 > 3 * S * C for S shelves of capacity C, which every capacity from 8 on meets
  (`Warehouse.NeverStuck`, `Warehouse.NarrowWarehouseGetsStuck`).
- An empty list and the list of one service called `none` look the same to the registry's `_split`
  (`Words.SplitUndoesShown`).
- Nested transactions are no savepoints: writes of a failed inner transaction stay if the outer one swallows the exception
  (`Transactions.BracketsMatter`).
- The tree diff overlooks elements that a later, different element with the same id shadows, and only those
  (`DiffByIds.EmptyDiffMeansPartnersIff`).
- What the tree diff prints does not always tell its targets apart: {"a.b": 1, "a": {"b": 1}} with the first or the second 1
  changed to 2 gives the same line. A tree tells all its targets apart exactly if none of its children is an object or a
  list compared by ids (`FlatDiff.TellsTargetsApartIff`). From any other tree, targets are told apart if the names in all
  three are without dots and brackets (`PrintedDiff.PlainTreesDoNotCollide`); which other names are unsafe, and why, say
  `PrintedDiff.DottedKeysCollide` and the two lemmas after it.
- An artifact whose originating event is the empty string passes the evidence check (`ApplyFrame.OriginAcceptedIff`).

## Model

| member | source | states |
|---|---|---|
| History.EveryRunKeepsTheDatabase | src/mnestic/storage/store.py:232-251 | after any run of any number of processes, with any crashes, resumes and replies: events numbered from 0 without a gap, versions exactly 0 to current with the current state as the last, every version linked to the one before it, applied patch records matched one to one with patch-carrying versions, step rows exactly 0 to the committed step counter |
| History.NothingCommittedIsLost | src/mnestic/storage/store.py:312-323 | over any continuation of a run the archive is only appended to, and every committed version stays as it is |
| History.PatchCommitsAtMostOnce | src/mnestic/graph/nodes.py:144-167 | two applied patch records that name the same version are the same record, so a decision commits at most once |
| History.CommittedPatchIsRejectedForever | src/mnestic/graph/nodes.py:128-184 | once a patch is committed, a process that holds it is refused as stale on the current state and loses the compare-and-set on an older one |
| History.EveryVersionHasDistinctIds | src/mnestic/models/state.py:194-212 | in every committed version of every run ids are unique in each list and disjoint across the seven lists other than the plan |
| History.EveryCitationIsArchived | src/mnestic/state/apply.py:198-228 | if the initial operations cite nothing, every event id cited in any committed version is in the archive and every fact cites at least one |
| History.EveryRecordSurvives | src/mnestic/graph/nodes.py:150-155 | from any version to any later one every fact, rejected hypothesis, artifact, pending action, blocker and question is in the state verbatim or in an archive event |
| History.EveryVersionIsCompacted | src/mnestic/state/apply.py:504-520 | no committed version is over the limits that compaction enforces |
| History.LedgerPatchKeepsLists | src/mnestic/graph/nodes.py:336-342 | a ledger patch leaves every record list alone, so dropping what its compaction archives loses nothing |
| History.PatchLeavesCompacted | src/mnestic/state/apply.py:504-520 | an applied patch leaves nothing for compaction to do |
| History.LinkConserves | src/mnestic/graph/nodes.py:144-167 | one link of the version chain loses no record: it is in the next version or in the archive |
| History.LinkKeepsGrounded | src/mnestic/graph/nodes.py:128-133 | one link of the version chain keeps every citation inside the archive |
| History.LinkKeepsIds | src/mnestic/state/apply.py:545-556 | one link of the version chain keeps ids unique and disjoint |
| EveryRun.CommitsOnce | src/mnestic/graph/nodes.py:144-167 | in the tables of every run, applied records of patches that name one version are one record |
| EveryRun.VersionsAreSound | src/mnestic/state/apply.py:198-228 | every version of every run has distinct ids, is compacted and, unless the initial operations cite something, cites archived events only |
| EveryRun.RecordsSurvive | src/mnestic/graph/nodes.py:144-167 | in every run, from any version to any later one, every record is there verbatim or archived, and every active hypothesis is still active or its id is that of a fact or rejected hypothesis, in the state or archived |
| EveryRun.CommittedStaysCommitted | src/mnestic/graph/nodes.py:128-184 | no process of any run can commit a decision again whose patch is committed |
| Hypotheses.EveryHypothesisIsTraced | src/mnestic/state/apply.py:308-362 | the same about hypotheses over the version chain |
| Hypotheses.PatchTraces | src/mnestic/state/apply.py:308-362 | over one accepted patch every active hypothesis stays active or is settled under its id |
| Runs.DoKeeps | src/mnestic/graph/runtime.py:131-229 | one step, crash or resume of any process keeps the database consistent and every live process anchored in it |
| Runs.RunKeeps | src/mnestic/graph/runtime.py:131-229 | the same over any sequence of steps, crashes and resumes |
| Runs.StartOk | src/mnestic/graph/runtime.py:99-126 | a started run is consistent from the first commit on, seeded or not, and its version 0 is the empty state |
| VersionSteps.MicroKeeps | src/mnestic/graph/nodes.py:42-455 | every transaction of every node keeps the versions numbered, linked and matched with patch records, and the process anchored |
| VersionSteps.CommitKeeps | src/mnestic/graph/nodes.py:144-176 | a decision commit adds exactly one version, computed from the content of the one before, with its patch record and archive events; a lost race changes nothing |
| VersionSteps.UpdateLedgerKeeps | src/mnestic/graph/nodes.py:328-346 | a ledger commit adds at most one version, which differs from the one before by its path operations |
| VersionSteps.NextStepKeeps | src/mnestic/graph/nodes.py:529-542 | closing a step moves the step counter and opens the next row together or not at all |
| VersionSteps.FinalizeKeeps | src/mnestic/graph/nodes.py:431-441 | ending a run adds at most one version that differs in its status only |
| VersionSteps.DispatchKeeps | src/mnestic/graph/runtime.py:155-175 | resuming adds at most one version that differs in its status only |
| VersionSteps.LoadKeeps | src/mnestic/graph/runtime.py:141-147 | a process that loads state and step row in two reads stands at the latest step as long as its version is current |
| Versions.ProcStays | src/mnestic/storage/store.py:232-251 | whatever other processes commit, a process keeps holding a committed version and its proposal stays well-founded |
| Versions.NoKeyConflict | src/mnestic/storage/store.py:232-251 | the compare-and-set succeeds exactly if the expected version is current, and the primary key of the version history is never in its way |
| Versions.QuietKeeps | src/mnestic/storage/store.py:300-323 | steps that only log, mark phases or save rows keep the whole version chain |
| Versions.PatchedVersion | src/mnestic/storage/store.py:232-282 | a patch commit extends chain and patch log together |
| Versions.PlainVersion | src/mnestic/storage/store.py:232-251 | a bookkeeping commit extends the chain by a version with the same content |
| Endings.EndedStepOverturnsIff | src/mnestic/graph/nodes.py:431-441 | under any number of processes, a step changes the state of an ended run exactly if its process stands at an end with another status and holds the current version; the new status is then paused |
| Endings.EndedRunStaysIff | src/mnestic/graph/nodes.py:168-176 | an ended run keeps state and version history over any labels of any number of processes exactly if no label steps such a process |
| Endings.HarmlessRunStaysEnded | src/mnestic/graph/nodes.py:431-441 | as long as every live process is past its decision and none is about to overturn, an ended run stays ended whatever happens next |
| Scenarios.EndIsFinalIff | src/mnestic/graph/nodes.py:168-176 | an ended run stays ended over all continuations exactly if none of them brings a process to a commit or to an ending with another status that holds the current version |
| Endings.EveryRunFits | src/mnestic/graph/nodes.py:144-176 | in every run of any number of processes: a process that holds the current state of an ended run has nothing left but to end, and one that lost a commit is behind |
| Endings.MicroEndFits | src/mnestic/graph/nodes.py:42-455 | every transaction of every node keeps that, for the stepping process |
| Scenarios.LoserOverturns | src/mnestic/graph/nodes.py:168-176 | any process that stands at a commit when the run ends overturns the end in four steps of its own |
| Scenarios.CompletedRunIsPaused | src/mnestic/graph/nodes.py:168-176 | from every plain start a concrete run of two processes ends with a paused version on top of a completed one |
| Rows.ClosedIsNeverReentered | src/mnestic/graph/runtime.py:222-227 | in every run of any number of processes the latest row is not closed, and no re-entered row is closed or waits for a human |
| Rows.RowsClosedIff | src/mnestic/graph/nodes.py:512-542 | under any number of processes all rows below the latest stay closed over a run exactly if no label steps a process that is behind into marking its row |
| Rows.StepClosedIff | src/mnestic/storage/store.py:629-645 | one step keeps all rows below the latest closed exactly if it is none of those; a reopened row is never closed again |
| Rows.MicroMarks | src/mnestic/graph/nodes.py:42-455 | what every transaction does to the step rows: which phase it writes to its own row, and that no other row moves |
| Scenarios.ClosedRowIsReopened | src/mnestic/graph/nodes.py:52-70 | from every plain start that allows one failure a concrete run of two processes ends with a closed row reopened below the latest |
| Scenarios.CommittedWithoutAction | src/mnestic/graph/runtime.py:188-199 | a concrete run of one process ends in the committed phase of a tool step without action id |
| Scenarios.CommittedWithOldAction | src/mnestic/graph/runtime.py:188-199 | a concrete run of one process ends in the committed phase of a tool step with the action id of an earlier, failed pass |
| SoloRuns.OneProcessAtATime | src/mnestic/graph/nodes.py:512-542 | with one process at a time, over any crashes and resumes: rows are 0 to n, closed exactly below n, n the committed counter; at most one tool execution and one tool invocation per step; an open execution belongs to row n in the dispatched phase |
| SoloRuns.EndedRunStaysEnded | src/mnestic/graph/nodes.py:431-455 | with one process at a time, once a committed status is terminal no later step, crash or resume changes state or version history |
| SoloRuns.EndedStepCommitsNothing | src/mnestic/graph/runtime.py:143-144 | no node commits anything in an ended run |
| SoloRuns.RedecidingIsRejected | src/mnestic/graph/runtime.py:195-199 | re-entering the decision from a committed phase always ends in a rejection |
| SoloRuns.CommittedToolStepIsDispatchedIff | src/mnestic/graph/runtime.py:188-199 | a committed tool step without recorded action is dispatched exactly if its row has an action id, else it ends in a rejection |
| SoloRuns.RunStaysAlone | src/mnestic/graph/runtime.py:131-229 | the one-process invariant over any sequence of steps, crashes and resumes |
| Solo.MicroTogether | src/mnestic/graph/nodes.py:42-455 | every transaction keeps rows, executions, invocations and the process in agreement |
| Solo.NeverStale | src/mnestic/graph/nodes.py:168-176 | with one process the stale-write branches are dead |
| Solo.ApplyDecisionTogether | src/mnestic/graph/nodes.py:121-143 | only a decision whose patch is not committed yet gets past the version check |
| Solo.CommitTogether | src/mnestic/graph/nodes.py:144-189 | a commit moves the row to the committed phase and never meets a stale version |
| Solo.ExecuteActionTogether | src/mnestic/graph/nodes.py:270-289 | a dispatch happens only on a row without execution, so the execution is the only one of its step |
| Solo.RunToolTogether | src/mnestic/graph/nodes.py:283-289 | a tool runs only for a step it has not run for |
| Solo.CaptureObservationTogether | src/mnestic/graph/nodes.py:299-327 | after capturing no execution is open, also if a resume had closed it as interrupted |
| Solo.InterruptTogether | src/mnestic/graph/runtime.py:208-218 | the resume of a dispatched step closes the one execution that can be open |
| Solo.EnterTogether | src/mnestic/graph/runtime.py:177-229 | every phase the latest row can be in leads to a node whose demands it meets; the closed phase never occurs |
| Solo.DispatchTogether | src/mnestic/graph/runtime.py:155-175 | after the status check the run is running and the row is not one that waits for a human |
| Solo.NextStepTogether | src/mnestic/graph/nodes.py:512-542 | the new row is the latest, all others are closed and nothing is open |
| Bounds.MicroIsEdge | src/mnestic/graph/nodes.py:42-464 | every node leads only to the nodes its graph edges name, and moves the failure, timeout, trip and step counters only as it should |
| Bounds.EdgeDescends | src/mnestic/graph/nodes.py:47-50 | every step descends in the order of remaining steps and node rank |
| Bounds.InvocationEnds | src/mnestic/graph/nodes.py:47-50 | every invocation stops after at most 20 * (limit + 2) steps, whatever other processes, models and tools do |
| Bounds.ModelCallsAreBounded | src/mnestic/graph/state.py:83-98 | a started run makes at most its limit of model calls, a resumed one at most one fewer |
| Bounds.FailuresAreBounded | src/mnestic/graph/nodes.py:381-421 | between two committed decisions there are at most maxFailures * maxTimeouts failing steps, and per invocation at most maxFailures loop trips |
| Bounds.GuardRemembersWhatPassed | src/mnestic/graph/nodes.py:209-228 | the guard remembers the window over the actions that passed since its last trip |
| Bounds.NoLoopGetsThrough | src/mnestic/graph/nodes.py:215-233 | between two trips any window of consecutive tool actions that were let through holds every signature fewer than maxRepeats times |
| LoopGuard.NoRepeatsInAnyWindow | src/mnestic/graph/nodes.py:215-219 | the same about the guard alone, for every stretch of passed actions |
| LoopGuard.TripsIff | src/mnestic/graph/nodes.py:215-219 | a request trips exactly if the last window - 1 passed actions hold maxRepeats - 1 equal ones |
| LoopGuard.MemoryIsWindow | src/mnestic/graph/nodes.py:217-217 | truncating after every request remembers the same as truncating once |
| Nodes.Runner.Step | src/mnestic/graph/nodes.py:42-464 | the program, run from one commit to the next, takes exactly a step of the transition system |
| Nodes.Runner.Begin | src/mnestic/graph/state.py:83-98 | what a new step resets and counts |
| Nodes.Runner.BuildContextNode | src/mnestic/graph/nodes.py:45-67 | invocation limit before run budget before context |
| Nodes.Runner.ReasonNode | src/mnestic/graph/nodes.py:74-114 | reply or error recorded in one transaction; a reply moves the row, an error does not |
| Nodes.Runner.ApplyDecisionNode | src/mnestic/graph/nodes.py:121-143 | the patched copy, dressed with the counters and the status the control implies |
| Nodes.Runner.CommitDecision | src/mnestic/graph/nodes.py:144-167 | patch record, compare-and-set, archive events and row in one transaction; an exception leaves the tables as they were |
| Nodes.Runner.CommitNode | src/mnestic/graph/nodes.py:144-197 | where a commit, a lost race and a key error lead |
| Nodes.Runner.RecordStaleNode | src/mnestic/graph/nodes.py:168-174 | the lost race is recorded in a transaction of its own |
| Nodes.Runner.ReloadStaleNode | src/mnestic/graph/nodes.py:175-176 | the loser takes over the current state and pauses |
| Nodes.Runner.RecordRejectionNode | src/mnestic/graph/nodes.py:177-184 | a rejected patch is recorded and becomes a failure |
| Nodes.Runner.Guard | src/mnestic/graph/nodes.py:215-223 | the loop guard, and that it forgets everything when it trips |
| Nodes.Runner.RequestActionNode | src/mnestic/graph/nodes.py:198-237 | the action is recorded before the guards decide where it leads |
| Nodes.Runner.RetrieveMemoryNode | src/mnestic/graph/nodes.py:245-263 | retrieval, closing and opening in one transaction, with the same observation |
| Nodes.Runner.ExecuteActionNode | src/mnestic/graph/nodes.py:270-282 | the execution row exists and the phase is dispatched before the tool runs |
| Nodes.Runner.RunToolNode | src/mnestic/graph/nodes.py:283-289 | the tool itself, outside any transaction |
| Nodes.Runner.CaptureObservationNode | src/mnestic/graph/nodes.py:296-327 | an execution already closed keeps its event, an open one is closed with a new event |
| Nodes.Runner.CommitLedger | src/mnestic/graph/nodes.py:334-342 | the ledger patch record rolls back with its commit |
| Nodes.Runner.UpdateLedgerNode | src/mnestic/graph/nodes.py:328-346 | a refused ledger patch is survived, an unreadable ledger, an oversized patch or a lost race is not |
| Nodes.Runner.AdvanceNode | src/mnestic/graph/nodes.py:512-526 | observation, closing and opening in one transaction |
| Nodes.Runner.OpenNext | src/mnestic/graph/nodes.py:529-541 | counter commit and next row, or nothing |
| Nodes.Runner.CloseWith | src/mnestic/graph/nodes.py:512-542 | the nested transaction joins the outer one and fails with it |
| Nodes.Runner.AwaitHumanNode | src/mnestic/graph/nodes.py:360-371 | the question is recorded and the row waits |
| Nodes.Runner.CountFailure | src/mnestic/graph/nodes.py:381-394 | timeouts count on a streak of their own, loops also as trips |
| Nodes.Runner.HandleFailureNode | src/mnestic/graph/nodes.py:381-421 | timeouts pause, other failures and trips fail, all else is fed back |
| Nodes.Runner.FinalizeNode | src/mnestic/graph/nodes.py:431-441 | the status is committed if it differs; losing that race is ignored |
| Nodes.Runner.LoadStateNode | src/mnestic/graph/runtime.py:141-144 | an ended run is not resumed |
| Nodes.Runner.LoadStepNode | src/mnestic/graph/runtime.py:145-147 | the latest row is the one resumed |
| Nodes.Runner.DispatchNode | src/mnestic/graph/runtime.py:155-175 | waiting rows and waiting runs need an answer; anything else not running becomes running |
| Nodes.Runner.EnterAt | src/mnestic/graph/runtime.py:177-229 | the re-entry point of every phase |
| Nodes.Runner.EnterNode | src/mnestic/graph/runtime.py:177-229 | the observation is reloaded and the step begun anew before re-entry |
| Nodes.Runner.InterruptOpen | src/mnestic/graph/runtime.py:208-218 | the open execution is closed as interrupted, in one transaction with the event |
| Nodes.StartRun | src/mnestic/graph/runtime.py:79-129 | everything in one transaction; a refused initial patch leaves the database as it was |
| Nodes.Seed | src/mnestic/graph/runtime.py:112-123 | the initial patch is applied without evidence or schema check and committed as version 1 |
| Storage.Store.Commit | src/mnestic/storage/store.py:232-251 | succeeds, loses or fails exactly as the compare-and-set says, inside whatever transaction is open |
| Storage.Store.AppendEvent | src/mnestic/storage/store.py:300-323 | the next sequence number, in a transaction of its own or the one that is open |
| Storage.Store.AppendItems | src/mnestic/graph/nodes.py:150-155 | one event per archived item, in order |
| Storage.Store.SetStep | src/mnestic/storage/store.py:629-648 | the phase always, other columns only when given, other rows never |
| Storage.Store.OpenStep | src/mnestic/storage/store.py:613-627 | a new row, or the primary key error |
| Storage.Store.FindOpen | src/mnestic/storage/store.py:479-484 | the newest open execution of the step |
| Tables.FindOpenExec | src/mnestic/storage/store.py:479-484 | finds an open execution of the step, and finds none only if there is none |
| Tables.LatestStep | src/mnestic/storage/store.py:654-656 | the greatest step, none only of an empty table |
| Transactions.Database.Run | src/mnestic/storage/db.py:44-60 | nested scripts with writes, exceptions and handlers do through the depth counter exactly what they mean |
| Transactions.Database.Leave | src/mnestic/storage/db.py:44-60 | only the outermost level commits or rolls back |
| Transactions.NestingIsFlat | src/mnestic/storage/db.py:27-31 | inner transactions join the outer one: removing their brackets changes nothing |
| Transactions.AllOrNothing | src/mnestic/storage/db.py:44-60 | under any nesting the store takes all writes if no exception escapes and none if one does |
| Transactions.BracketsMatter | src/mnestic/storage/db.py:44-60 | writes outside a transaction survive an exception, writes of a failed inner transaction survive if the outer one swallows it |
| ApplyKeeps.PatchConserves | src/mnestic/state/apply.py:251-476 | every fact, rejected hypothesis, artifact, pending action, blocker and question present after any prefix of the operations is verbatim in the result or archived, compaction included |
| ApplyKeeps.PatchSettlesHypotheses | src/mnestic/state/apply.py:308-362 | a hypothesis that leaves at any operation is, under its id and with its statement of that moment, a fact or rejected hypothesis of the result or archived as one |
| ApplyKeeps.OpPreserves | src/mnestic/state/apply.py:251-476 | conservation for one operation |
| ApplyKeeps.OpSettlesHypotheses | src/mnestic/state/apply.py:308-362 | one operation: a hypothesis stays under its id or has become a fact or a rejected hypothesis |
| ApplyKeeps.CompactPreserves | src/mnestic/state/apply.py:504-520 | compaction archives what it drops |
| ApplyKeeps.PrefixDone | src/mnestic/state/apply.py:158-168 | an accepted patch got through every prefix of its operations |
| ApplyIds.PatchKeepsIds | src/mnestic/state/apply.py:545-556 | an accepted patch keeps ids unique in each list and disjoint across the seven lists other than the plan |
| ApplyIds.IdValidationNeverFires | src/mnestic/models/state.py:194-212 | from a valid state the final validation can only fail on equal statements, never on ids |
| ApplyIds.RemoveDropsThatRecord | src/mnestic/state/apply.py:236-248 | with unique ids, removing by equality deletes exactly the record found by id |
| ApplyIds.OpKeepsIds | src/mnestic/state/apply.py:271-422 | the id invariant for one operation |
| ApplyIds.CompactRejectedKeeps | src/mnestic/state/apply.py:504-513 | compaction keeps or archives every rejected hypothesis |
| ApplyIds.CompactionSpillsOldest | src/mnestic/state/apply.py:504-513 | what compaction spills is never younger than what it keeps |
| ApplyFrame.PatchFrame | src/mnestic/state/apply.py:123-192 | an accepted patch names its version and moves it by one, touches neither counters nor budget, and neither creates nor leaves a terminal status |
| ApplyFrame.PatchGrounded | src/mnestic/state/apply.py:198-228 | an accepted patch keeps every citation inside the archive it was checked against |
| ApplyFrame.OpGrounded | src/mnestic/state/apply.py:251-476 | one operation adds no citation but its own |
| ApplyFrame.DomainOpsOnlyEditDomain | src/mnestic/state/apply.py:449-471 | path operations succeed exactly if they do on the domain alone, and change nothing else |
| ApplyFrame.EvidenceAcceptedIff | src/mnestic/state/apply.py:198-228 | the evidence check passes exactly if every operation that needs evidence cites some and every cited event is in the archive |
| ApplyFrame.OriginAcceptedIff | src/mnestic/state/apply.py:198-228 | an artifact passes exactly if its originating event is absent, empty or in the archive |
| Apply.FirstIndex | src/mnestic/state/apply.py:198-228 | the first offending operation, none only if there is none |
| State.Find | src/mnestic/state/apply.py:236-248 | finds a record with the id exactly if there is one |
| Draft.ApplyPatch | src/mnestic/state/apply.py:138-192 | the in-place program accepts, refuses and computes as specified, with the same code and operation index, and leaves its input alone |
| Draft.ApplyInOrder | src/mnestic/state/apply.py:158-168 | the operation loop stops at the first refusal and names it |
| Draft.FinishDraft | src/mnestic/state/apply.py:169-192 | compaction, limits, schema, validation and size in that order |
| Draft.CheckIds | src/mnestic/models/state.py:194-206 | the validation of ids |
| Draft.CheckUniqueIds | src/mnestic/models/state.py:256-261 | one pass over the ids seen decides uniqueness |
| Draft.Draft.ApplyOne | src/mnestic/state/apply.py:251-476 | the draft after one operation, or the code of its refusal |
| Draft.Draft.ApplyFactOp | src/mnestic/state/apply.py:271-307 | facts: evidence, ids, promotion, supersession, removal, archiving |
| Draft.Draft.ApplyHypothesisOp | src/mnestic/state/apply.py:308-362 | hypotheses: repeated rejection and promotion change nothing |
| Draft.Draft.ApplyPlanOp | src/mnestic/state/apply.py:363-392 | artifacts and plan: a replaced plan is archived |
| Draft.Draft.ApplyPendingOp | src/mnestic/state/apply.py:393-401 | pending actions |
| Draft.Draft.ApplyBlockerOp | src/mnestic/state/apply.py:402-412 | blockers |
| Draft.Draft.ApplyQuestionOp | src/mnestic/state/apply.py:413-422 | questions: the answer is archived with the question |
| Draft.Draft.ApplyTableOp | src/mnestic/state/apply.py:423-448 | environment, entities, constraints |
| Draft.Draft.ApplyScalarOp | src/mnestic/state/apply.py:251-270 | phase, status, objective, summary, metadata |
| Draft.Draft.ApplyStatusOp | src/mnestic/state/apply.py:123-135 | the model may set running and blocked only, along the transition table |
| Draft.Draft.ApplyDomainOp | src/mnestic/state/apply.py:449-471 | path operations; a deleted value is archived |
| Draft.Draft.CompactInPlace | src/mnestic/state/apply.py:504-520 | oldest rejected hypotheses first, then all finished plan steps |
| Domain.SetIsReadBack | src/mnestic/state/apply.py:449-452 | what a set path writes is what the path reads |
| Domain.SetAcceptedIff | src/mnestic/state/apply.py:479-492 | a set is refused exactly if something neither object nor null is in the way |
| Domain.DeleteAcceptedIff | src/mnestic/state/apply.py:467-471 | a delete is refused exactly if the path is missing, and leaves it missing |
| Domain.UnrelatedPathsUnaffected | src/mnestic/state/apply.py:479-492 | no operation disturbs a path that is neither above nor below its own |
| Domain.AdjustMovesOnePath | src/mnestic/state/apply.py:453-466 | an adjustment moves its own path by its delta and no other path, with or without dropping zero |
| Domain.AdjustmentsConserve | src/mnestic/state/apply.py:453-466 | over any run of adjustments a path holds its initial value plus the sum of its deltas, missing counting as 0 |
| Ledger.BuildLedgerOps | src/mnestic/graph/nodes.py:471-487 | the loop over reported facts builds the deletes of the oldest keys followed by the sets, and the search for the oldest raises exactly if an entry it must compare has no comparable step |
| Ledger.Sanitize | src/mnestic/graph/nodes.py:482-482 | a legal path segment of at most 120 characters; a clean short key stays as it is |
| LedgerProofs.LedgerUpdate | src/mnestic/graph/nodes.py:471-487 | the delete-then-set operations go through exactly if at most cap reported keys are new, and then yield the ledger without the victims, overwritten by the report |
| LedgerProofs.LedgerPatchOutcome | src/mnestic/graph/nodes.py:334-346 | the same through apply_patch: with more new keys than the cap it is refused, within the cap it is never refused for a missing path |
| LedgerRuns.LedgerVersionsAreARun | src/mnestic/graph/nodes.py:328-346 | over every run of one process at a time, with crashes and resumes, whose replies leave the ledger of a tool alone and whose reports are within the cap: the versions of that ledger are a run of ledger updates at strictly growing steps, from the seeded one to the current one |
| LedgerRuns.LedgerAgreesAfterEveryRun | src/mnestic/graph/nodes.py:471-487 | at the end of every such run the ledger agrees with the last write per key, holds nothing older than what it lacks, and is within the cap |
| LedgerRace.TwoReportsBreakTheCap | src/mnestic/graph/nodes.py:471-487 | under several processes neither growing steps nor the cap survive: from every plain start with a cap of two, a concrete run of three processes, all of whose labels the theorem about one process admits, commits two reports of one tool at step 0, and its ledger ends with three entries |
| LedgerRace.CapKeptExactly | src/mnestic/graph/nodes.py:471-487 | whatever the steps of its entries are, an accepted update ends within the cap exactly if it evicts no key that it reports |
| LedgerRuns.ReportsOnce | src/mnestic/graph/nodes.py:283-330 | once the report of a step is made or lost, by a crash or otherwise, that step makes no other |
| LedgerFrame.MicroKeepsCopy | src/mnestic/graph/nodes.py:42-455 | no node changes the ledger of a tool except a report of that tool, if the decision leaves it alone |
| LedgerFrame.PatchElsewhere | src/mnestic/state/apply.py:449-492 | a patch without operation below a name leaves the value under that name alone |
| History.LedgerCommitFollows | src/mnestic/graph/nodes.py:334-343 | what a process commits to its ledger is exactly one such update |
| LedgerProofs.CapKeptIff | src/mnestic/graph/nodes.py:484-486 | the cap holds after an update exactly if the report itself is within it; a larger report leaves precisely its own keys |
| LedgerProofs.UpdateKeepsLatest | src/mnestic/graph/nodes.py:471-487 | reported keys hold their latest fact, kept keys are untouched, nothing is evicted while there is room, no evicted entry is younger than a kept one |
| LedgerProofs.LedgerRefinesLastWrites | src/mnestic/graph/nodes.py:471-487 | over any run of results within the cap the ledger agrees with the unbounded last-write map on all it holds, and lacks nothing younger than what it holds |
| LedgerProofs.OldestOverIsOldest | src/mnestic/graph/nodes.py:484-486 | the evicted slots are the oldest ones, and as many as are over the cap |
| LedgerProofs.VictimsAgainstReport | src/mnestic/graph/nodes.py:484-486 | within the cap no reported key is evicted; beyond it every old key is |
| LedgerProofs.VictimsPresentIff | src/mnestic/graph/nodes.py:484-487 | every evicted key is already in the ledger exactly if at most cap keys are new |
| Sorting.SortByCorrect | src/mnestic/graph/nodes.py:485-485 | sorting is a permutation in key order |
| Sorting.SortByKeepsTail | src/mnestic/graph/nodes.py:485-485 | sorting is stable where it decides evictions |
| Warehouse.NeverStuck | src/mnestic/benchmarks/warehouse.py:61-87 | in a wide enough warehouse, whatever is drawn and on whichever fitting shelves earlier orders went, the next order fits somewhere |
| Warehouse.NarrowWarehouseGetsStuck | src/mnestic/benchmarks/warehouse.py:61-87 | for every other size the generator can draw a first order that fits nowhere, so the size condition is exact |
| Warehouse.EightIsEnough | src/mnestic/benchmarks/warehouse.py:61-87 | capacity 8 makes every warehouse wide enough |
| Warehouse.PlayedTallies | src/mnestic/benchmarks/warehouse.py:70-86 | while orders are fulfilled the generator's running totals are the true ones |
| Warehouse.FulfilKeepsSound | src/mnestic/benchmarks/warehouse.py:130-152 | fulfilling an order keeps shelves within capacity and stock positive |
| Warehouse.FulfilMovesTotals | src/mnestic/benchmarks/warehouse.py:130-152 | fulfilling an order moves the total of its item by its quantity and no other |
| Warehouse.CountedTwice | src/mnestic/benchmarks/warehouse.py:89-93 | counting by item and counting by shelf agree |
| Warehouse.StockingIsSound | src/mnestic/benchmarks/warehouse.py:61-69 | whatever is stocked beforehand, the warehouse starts sound |
| WarehouseSim.WarehouseEnv.constructor | src/mnestic/benchmarks/warehouse.py:61-87 | the loops stock the shelves and draw the orders as specified |
| WarehouseSim.WarehouseEnv.Draw | src/mnestic/benchmarks/warehouse.py:70-86 | the running tally decides each draw |
| WarehouseSim.WarehouseEnv.Act | src/mnestic/benchmarks/warehouse.py:117-163 | inspecting consumes nothing; any other answer consumes the order, scores it, and changes the inventory only if correct |
| WarehouseSim.WarehouseEnv.Respond | src/mnestic/benchmarks/warehouse.py:191-198 | the named shelf is reported as it is, a total only after a successful move |
| WarehouseScript.LedgerTracksTheWorld | src/mnestic/benchmarks/warehouse.py:191-198 | whatever an agent answers, shelf and total entries equal the true inventory if shelves + 10 fit the ledger |
| WarehouseScript.LedgerTracksIdleCalls | src/mnestic/benchmarks/warehouse.py:191-198 | the same for inspections and for calls after the last order, which report without consuming |
| WarehouseScript.InitialLedgerAgrees | src/mnestic/benchmarks/warehouse.py:98-106 | the seeded ledger equals the initial inventory |
| WarehouseScript.InitialDomain | src/mnestic/benchmarks/warehouse.py:98-106 | the initial operations leave the capacity and exactly the seeded ledger |
| WarehouseScript.ScriptIsCorrect | src/mnestic/benchmarks/warehouse.py:225-256 | on an agreeing ledger the policy answers every feasible order correctly |
| WarehouseScript.ScriptIsPerfect | src/mnestic/benchmarks/warehouse.py:225-256 | over any benchmark of a wide enough warehouse the policy is never at a loss, always right, and scores 1 |
| WarehouseScript.FullScoreIff | src/mnestic/benchmarks/warehouse.py:168-170 | a nonempty sheet scores 1 exactly if every answer was correct |
| WarehouseScript.ShelfNamesArePlain | src/mnestic/benchmarks/warehouse.py:63-63 | the simulator's shelf names are ledger keys as they stand |
| Registry.RegistryEnv.constructor | src/mnestic/benchmarks/registry.py:68-74 | records with ports from 8000, sorted dependencies, all sound |
| Registry.RegistryEnv.Act | src/mnestic/benchmarks/registry.py:111-161 | reading consumes nothing; any other call consumes the order, scores it, and changes a record only by a correct mutation, which it reports |
| Registry.MutationKeepsSound | src/mnestic/benchmarks/registry.py:128-140 | dependency lists stay sorted and without duplicates; adding and removing change exactly the one member |
| Registry.WorldStaysSound | src/mnestic/benchmarks/registry.py:111-161 | the registry stays sound under any call |
| Registry.RegistryEnv.ListDependents | src/mnestic/benchmarks/registry.py:97-98 | one pass over the records and a sort give exactly the services whose dependency list has the given one, sorted and without duplicates |
| Words.SplitUndoesShown | src/mnestic/benchmarks/registry.py:168-174 | splitting undoes joining exactly unless the list is one of the words that stand for nothing, alone |
| RegistryScript.ListIsReadBack | src/mnestic/benchmarks/registry.py:146-152 | a sorted list of service names survives being shown, split and sorted |
| RegistryScript.LedgerTracksTheRecords | src/mnestic/benchmarks/registry.py:195-197 | whatever an agent answers, every ledger record equals the true one |
| RegistryScript.LedgerTracksReads | src/mnestic/benchmarks/registry.py:117-121 | the same for reading a record, which consumes no order |
| RegistryScript.InitialLedgerAgrees | src/mnestic/benchmarks/registry.py:108-109 | the initial operations leave exactly the true records |
| RegistryScript.ScriptIsCorrect | src/mnestic/benchmarks/registry.py:220-261 | on an agreeing ledger the policy answers every order correctly |
| RegistryScript.ScriptIsPerfect | src/mnestic/benchmarks/registry.py:220-261 | over every order stream ledger and records agree after any number of turns and every answer is correct |
| RegistryScript.CatalogueNamesArePlain | src/mnestic/benchmarks/registry.py:27-28 | the catalogue's names are words and ledger keys as they stand |
| Seeding.NothingEvicted | src/mnestic/graph/nodes.py:484-486 | with room for every key ever used an update overwrites and evicts nothing |
| TreeDiff.ComputeDiff | src/mnestic/cli/main.py:178-201 | the loops over the children, building paths as text, print the diff |
| TreeDiff.DiffEmptyIff | src/mnestic/cli/main.py:178-201 | the diff is empty exactly if the trees agree up to the order of id-keyed lists |
| TreeDiff.ReplayYieldsTarget | src/mnestic/cli/main.py:178-201 | replaying the diff, with its paths as segments, on the first tree yields the second, up to that order |
| PrintedDiff.ParseReads | src/mnestic/cli/main.py:182-192 | a printed path of plain names can be read back: keys without dot and opening bracket that are not empty, ids in which no closing bracket is followed by a dot |
| PrintedDiff.PrintedReplayYieldsTarget | src/mnestic/cli/main.py:178-201 | replaying the printed lines on the first tree yields the second if the names in both are plain |
| PrintedDiff.PlainTreesDoNotCollide | src/mnestic/cli/main.py:178-201 | so different targets never print the same diff |
| FlatDiff.TellsTargetsApartIff | src/mnestic/cli/main.py:178-201 | the printed diff from a tree tells all its targets apart, up to that order, exactly if no child of the tree is itself an object or a list compared by ids |
| PrintedDiff.DottedKeysCollide | src/mnestic/cli/main.py:182 | a key with a dot, or a key below the empty key, makes two different targets print the same diff |
| PrintedDiff.BracketedKeysCollide | src/mnestic/cli/main.py:182-192 | so does a key with an opening bracket |
| PrintedDiff.BracketedIdsCollide | src/mnestic/cli/main.py:192 | so does an id in which a closing bracket is followed by a dot |
| DiffByIds.EmptyDiffMeansPartnersIff | src/mnestic/cli/main.py:188-197 | an empty diff against whatever list means that every item has a partner there, exactly if no item is shadowed by a later one with its id that differs from it |
| DiffByIds.ToldApartAgreeIff | src/mnestic/cli/main.py:188-197 | between two such lists the diff is empty exactly if every item of either has a partner in the other |
| DiffByIds.ShadowedItemIsOverlooked | src/mnestic/cli/main.py:188-197 | a list that shadows an item shows no difference from one that keeps the later items only, though an item has no partner there |
| DiffByIds.RepeatedIdIsOverlooked | src/mnestic/cli/main.py:188-197 | the smallest instance |

## Left out

- Nodes.Runner.ReasonNode: the model call itself, its context, token counts and the stored raw messages; a reply is an arbitrary decision with exactly one of action, query and completion, or an error.
- Nodes.Runner.RetrieveMemoryNode: what the retriever finds, since it changes nothing durable but its own record.
- Nodes.Runner.RunToolNode: what a tool does; its result is arbitrary.
- Nodes.Runner.CaptureObservationNode: the execution row is read in the same step as the transaction that closes it, and artifacts a tool returns are not stored.
- Nodes.Runner.FinalizeNode: the runs table, metrics and the outcome record.
- Nodes.Runner.HandleFailureNode: the text of the feedback and the repeated observation.
- Nodes.StartRun: the skills and runs tables; the objective and environment a new state starts from are arbitrary.
- Storage.Store.AppendEvent: event ids are a function of the sequence number instead of random, as are the ids of patches, actions, executions and observations, which are row numbers.
- Draft.Draft.ApplyDomainOp: nested dictionaries are values, so that a value written by one operation stays shared with the patch and with later edits is not captured.
- Draft.FinishDraft: byte size, domain schema and statement normalisation are arbitrary functions.
- Draft.Draft.ApplyOne: field lengths and the re-validation of single assignments in the middle of a patch, which can only refuse more.
- Domain.AdjustmentsConserve: numbers are integers; float deltas and their rounding are not modelled.
- Domain.SetAcceptedIff: a path is the list of its segments; splitting it at dots is not modelled.
- Ledger.BuildLedgerOps: a list of pairs under the tool's name, which the program reads as a ledger; no path operation gets through it, so the step answers for it that the update is refused or raises.
- LedgerRuns.LedgerVersionsAreARun: one process at a time; under several it does not hold (LedgerRace.TwoReportsBreakTheCap).
- LedgerRuns.LedgerAgreesAfterEveryRun: one process at a time, as above.
- LedgerRuns.ReportsOnce: one process at a time; under several a step can be reported twice, as above.
- Domain.AdjustMovesOnePath: numbers are integers; float deltas and the rounding after each adjustment are not modelled.
- TreeDiff.ComputeDiff: ids of list elements are strings; lists with other ids are compared as whole values.
- TreeDiff.DiffEmptyIff: ids of list elements are strings, as above.
- Words.SplitUndoesShown: white space is that of ASCII and Latin-1; an answer is a text, never a list.
- Warehouse.NeverStuck: 0.6 times the room is taken exactly, not as a float.
- WarehouseScript.ScriptIsCorrect: orders reach the policy as data, not as text to be matched, and a total is looked up by its ledger key rather than by the item field inside it.
- RegistryScript.ScriptIsCorrect: orders reach the policy as data, not as text to be matched.
- Loop signatures hold the observation itself where the program holds a digest of it.
- Timestamps other than the one that orders rejected hypotheses; logging, rendering, full-text search, migrations, JSON encoding.
- Model providers, prompts, output schemas, skills, tool bodies and every command other than the tree diff: input and output, or nothing to prove.
