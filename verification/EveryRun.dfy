/** What every started run guarantees, with any number of processes, crashes, resumes and replies. */
module EveryRun {
  import opened State
  import opened Tables
  import opened Lifecycle
  import opened Versions
  import opened Runs
  import opened History
  import opened ApplyIds
  import opened ApplyKeeps
  import opened ApplyFrame
  import opened Hypotheses
  import Apply

  /** The tables of some run that was started on the empty state `s`. */
  ghost predicate Reached(c: Config, s: State, t: Tables) {
    exists input, now, limit, labels, solo :: Reaches(c, s, input, now, limit, labels, solo, t)
  }

  predicate Reaches(c: Config, s: State, input: string, now: int, limit: nat, labels: seq<Label>, solo: bool,
                    t: Tables) {
    Blank(s) && Start(c, s, input, now, limit).Some?
        && t == Run(c, Start(c, s, input, now, limit).value, labels, solo).t
  }

  lemma ReachedIsOrderly(c: Config, s: State, t: Tables)
    requires Reached(c, s, t)
    ensures Blank(s) && Numbered(t) && Linked(c, t) && PatchesMatch(t) && t.versions[0].state == s
  {
    hide Linked, PatchesMatch, Blank, Start, Run;
    var input, now, limit, labels, solo :| Reaches(c, s, input, now, limit, labels, solo, t);
    EveryRunKeepsTheDatabase(c, s, input, now, limit, labels, solo);
  }

  /** No patch commits twice: applied records of patches that name the same version are one record. */
  lemma CommitsOnce(c: Config, s: State, t: Tables, i: nat, j: nat)
    requires Reached(c, s, t) && i < |t.patches| && j < |t.patches|
    requires t.patches[i].resulting.Some? && t.patches[j].resulting.Some?
    requires t.patches[i].patch.expected == t.patches[j].patch.expected
    ensures i == j
  {
    hide Reached, Linked, Numbered, Blank;
    ReachedIsOrderly(c, s, t);
    PatchCommitsAtMostOnce(t, i, j);
  }

  /** Every committed version has distinct ids, is compacted, and, if the initial operations cite nothing, cites
      archived events only. */
  lemma VersionsAreSound(c: Config, s: State, t: Tables, v: nat)
    requires Reached(c, s, t) && v <= t.current.version
    ensures v in t.versions && IdInv(t.versions[v].state) && Compacted(t.versions[v].state, c.policy.limits)
    ensures CitesNothing(c.initial) ==> Grounded(t.versions[v].state, EventIds(t.events))
  {
    hide Reached, Linked, IdInv, Compacted, Grounded, CitesNothing, Blank;
    ReachedIsOrderly(c, s, t);
    EveryVersionHasDistinctIds(c, t, v);
    EveryVersionIsCompacted(c, t, v);
    if CitesNothing(c.initial) {
      EveryCitationIsArchived(c, t, v);
    }
  }

  /** From any version to any later one no record gets lost: it is there verbatim or in the archive, and an active
      hypothesis is still active or settled under its id. */
  lemma RecordsSurvive(c: Config, s: State, t: Tables, v: nat, w: nat)
    requires Reached(c, s, t) && v <= w <= t.current.version
    ensures v in t.versions && w in t.versions
    ensures Preserved(t.versions[v].state, t.versions[w].state, Preserves(t.events))
    ensures forall id <- Ids(t.versions[v].state.hyps) :: Traced(id, t.versions[w].state, Preserves(t.events))
  {
    hide Reached, Linked, Preserved, Traced, Blank;
    ReachedIsOrderly(c, s, t);
    EveryRecordSurvives(c, t, v, w);
    forall id | id in Ids(t.versions[v].state.hyps) ensures Traced(id, t.versions[w].state, Preserves(t.events)) {
      EveryHypothesisIsTraced(c, t, v, w, id);
    }
  }

  /** Whatever process of a run holds a decision whose patch is committed, it cannot commit it again. */
  lemma CommittedStaysCommitted(c: Config, s: State, input: string, now: int, limit: nat, labels: seq<Label>,
                                solo: bool,
                                pid: nat, i: nat, a: Answer)
    requires Blank(s) && Start(c, s, input, now, limit).Some?
    requires var r := Run(c, Start(c, s, input, now, limit).value, labels, solo);
      && pid in r.procs && r.procs[pid].decision.Some? && i < |r.t.patches| && r.t.patches[i].resulting.Some?
      && r.procs[pid].decision.value.patch == r.t.patches[i].patch
    ensures var r := Run(c, Start(c, s, input, now, limit).value, labels, solo); var p := r.procs[pid];
      && (p.pc.ApplyDecision? && p.exec.version == r.t.current.version ==>
            ApplyDecisionStep(c, r.t, p, a) == Go(r.t, p, RecordRejection))
      && (p.pc.Commit? ==> CommitStep(r.t, p) == Go(r.t, p, RecordStale))
  {
    hide Apply.ApplyPatch, TablesOk, ProcOk, Start, Run, Blank, ApplyDecisionStep, CommitStep;
    StartOk(c, s, input, now, limit);
    RunKeeps(c, Start(c, s, input, now, limit).value, labels, solo);
    var r := Run(c, Start(c, s, input, now, limit).value, labels, solo);
    CommittedPatchIsRejectedForever(c, r.t, i, r.procs[pid], a);
  }
}
