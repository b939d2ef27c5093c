/** The store: statements against the connection. Each method does to the tables what the function of the same kind
    says. */
module Storage {
  import opened Domain
  import opened State
  import opened Tables
  import opened Transactions

  datatype CommitResult = Committed | Lost | Broken

  class Store {
    const db: Database<Tables>

    constructor (db: Database<Tables>)
      ensures this.db == db
    {
      this.db := db;
    }

    /** `append_event`, in a transaction of its own when none is open. */
    method AppendEvent(step: nat, kind: EventKind, item: Option<Archived>) returns (id: string)
      requires db.Valid()
      modifies db
      ensures db.Valid() && db.depth == old(db.depth)
      ensures db.working == Append(old(db.working), step, kind, item) && id == LastEvent(db.working)
      ensures db.durable == if db.depth == 0 then db.working else old(db.durable)
    {
      db.Enter();
      var events := db.working.events;
      var n := NextSeq(events);
      db.Execute(db.working.(events := events + [Event(n, EventName(n), step, kind, item)]));
      id := EventName(n);
      db.Leave(true);
    }

    /** The archived items of an applied patch, one event each. */
    method AppendItems(step: nat, items: seq<Archived>)
      requires db.Valid() && db.depth > 0
      modifies db
      ensures db.Valid() && db.depth == old(db.depth) && db.durable == old(db.durable)
      ensures db.working == ArchiveItems(old(db.working), step, items)
    {
      var i := 0;
      while i < |items|
        invariant 0 <= i <= |items|
        invariant db.Valid() && db.depth == old(db.depth) && db.durable == old(db.durable)
        invariant db.working == ArchiveItems(old(db.working), step, items[..i])
      {
        var _ := AppendEvent(step, if items[i].automatic then StateCompaction else PatchApplied, Some(items[i]));
        assert items[..i+1][..i] == items[..i];
        i := i + 1;
      }
      assert items[..i] == items;
    }

    /** The compare-and-set update, then the insert; an exception leaves through this transaction and the caller's. */
    method Commit(s: State, expected: nat, patchId: Option<nat>, step: nat) returns (r: CommitResult)
      requires db.Valid() && db.depth > 0
      modifies db
      ensures db.Valid() && db.depth == old(db.depth) && db.durable == old(db.durable)
      ensures match CommitState(old(db.working), s, expected, patchId, step)
              case Wrote(t) => r.Committed? && db.working == t
              case StaleWrite => r.Lost?
              case KeyConflict => r.Broken?
    {
      if s.version != expected + 1 {
        return Broken;
      }
      db.Enter();
      if db.working.current.version != expected {
        db.Leave(false);
        return Lost;
      }
      db.Execute(db.working.(current := s));
      if s.version in db.working.versions {
        db.Leave(false);
        return Broken;
      }
      db.Execute(db.working.(versions := db.working.versions[s.version := VersionRow(step, patchId, s)]));
      db.Leave(true);
      r := Committed;
    }

    method SavePatch(step: nat, patch: Patch, resulting: Option<nat>) returns (id: nat)
      requires db.Valid()
      modifies db
      ensures db.Valid() && db.depth == old(db.depth)
      ensures db.working == RecordPatch(old(db.working), step, patch, resulting) && id == |old(db.working).patches|
      ensures db.durable == if db.depth == 0 then db.working else old(db.durable)
    {
      id := |db.working.patches|;
      db.Execute(db.working.(patches := db.working.patches + [PatchRow(step, patch, resulting)]));
    }

    /** False on the primary key. */
    method OpenStep(step: nat, observation: nat) returns (ok: bool)
      requires db.Valid() && db.depth > 0
      modifies db
      ensures db.Valid() && db.depth == old(db.depth) && db.durable == old(db.durable)
      ensures match CreateStep(old(db.working), step, observation)
              case Wrote(t) => ok && db.working == t
              case _ => !ok
    {
      if step in db.working.steps {
        return false;
      }
      var row := StepRow(ObservationReady, observation, None, None, None);
      db.Execute(db.working.(steps := db.working.steps[step := row]));
      ok := true;
    }

    /** Sets the phase, and whatever else is given, of an existing row. */
    method SetStep(step: nat, phase: Phase, decision: Option<Decision>, patchId: Option<nat>, actionId: Option<nat>)
      requires db.Valid()
      modifies db
      ensures db.Valid() && db.depth == old(db.depth)
      ensures db.working == UpdateStep(old(db.working), step, RowUpdate(phase, decision, patchId, actionId))
      ensures db.durable == if db.depth == 0 then db.working else old(db.durable)
    {
      if step in db.working.steps {
        var row := db.working.steps[step].(phase := phase);
        if decision.Some? {
          row := row.(decision := decision);
        }
        if patchId.Some? {
          row := row.(patchId := patchId);
        }
        if actionId.Some? {
          row := row.(actionId := actionId);
        }
        db.Execute(db.working.(steps := db.working.steps[step := row]));
      } else {
        db.Execute(db.working);
      }
    }

    method KeepObservation(kind: ObservationKind, content: string)
      requires db.Valid()
      modifies db
      ensures db.Valid() && db.depth == old(db.depth)
      ensures db.working == SaveObservation(old(db.working), kind, content)
      ensures db.durable == if db.depth == 0 then db.working else old(db.durable)
    {
      db.Execute(db.working.(observations := db.working.observations
                             + [Observation(|db.working.observations|, kind, content)]));
    }

    method KeepAction(step: nat) returns (id: nat)
      requires db.Valid()
      modifies db
      ensures db.Valid() && db.depth == old(db.depth)
      ensures db.working == SaveAction(old(db.working), step) && id == |old(db.working).actions|
      ensures db.durable == if db.depth == 0 then db.working else old(db.durable)
    {
      id := |db.working.actions|;
      db.Execute(db.working.(actions := db.working.actions + [step]));
    }

    method StartExecution(step: nat) returns (id: nat)
      requires db.Valid()
      modifies db
      ensures db.Valid() && db.depth == old(db.depth)
      ensures db.working == StartExec(old(db.working), step) && id == |old(db.working).execs|
      ensures db.durable == if db.depth == 0 then db.working else old(db.durable)
    {
      id := |db.working.execs|;
      db.Execute(db.working.(execs := db.working.execs + [ExecRow(step, Started, None)]));
    }

    method FinishExecution(id: nat, status: ExecStatus, event: string)
      requires db.Valid()
      modifies db
      ensures db.Valid() && db.depth == old(db.depth)
      ensures db.working == FinishExec(old(db.working), id, status, event)
      ensures db.durable == if db.depth == 0 then db.working else old(db.durable)
    {
      if id < |db.working.execs| {
        var row := db.working.execs[id].(status := status, event := Some(event));
        db.Execute(db.working.(execs := db.working.execs[id := row]));
      } else {
        db.Execute(db.working);
      }
    }

    /** `ORDER BY started_at DESC LIMIT 1` over the open executions of the step. */
    method FindOpen(step: nat) returns (r: Option<nat>)
      ensures r == FindOpenExec(db.working.execs, step)
    {
      var execs := db.working.execs;
      var i := |execs|;
      assert execs[..i] == execs;
      while i > 0
        invariant 0 <= i <= |execs|
        invariant FindOpenExec(execs, step) == FindOpenExec(execs[..i], step)
      {
        i := i - 1;
        assert execs[..i+1][..i] == execs[..i];
        if execs[i].step == step && execs[i].status.Started? {
          return Some(i);
        }
      }
      r := None;
    }
  }
}
