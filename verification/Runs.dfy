/** Theorems about every run: any number of processes, any interleaving, any crashes, any replies. */
module Runs {
  import opened Domain
  import opened State
  import opened Tables
  import opened Lifecycle
  import opened Versions
  import opened VersionSteps
  import Apply
  import ApplyFrame

  ghost predicate SystemOk(c: Config, s: System) {
    TablesOk(c, s.t) && forall pid <- s.procs :: ProcOk(c, s.t, s.procs[pid])
  }

  // ---- one label ----

  lemma OthersStay(c: Config, s: System, u: Tables, pid: nat)
    requires SystemOk(c, s) && TablesOk(c, u) && Grows(s.t, u)
    ensures forall q <- s.procs :: ProcOk(c, u, s.procs[q])
  {
    hide Apply.ApplyPatch, Link, Linked, PatchesMatch, ProcOk;
    forall q | q in s.procs ensures ProcOk(c, u, s.procs[q]) {
      ProcStays(c, s.t, u, s.procs[q]);
    }
  }

  lemma StepKeeps(c: Config, s: System, pid: nat, a: Answer, solo: bool)
    requires SystemOk(c, s)
    ensures SystemOk(c, Do(c, s, Step(pid, a), solo)) && Grows(s.t, Do(c, s, Step(pid, a), solo).t)
  {
    hide Apply.ApplyPatch, TablesOk, ProcOk, Grows, Micro, Ordered;
    if pid in s.procs && Ordered(s.procs[pid], a) {
      MicroKeeps(c, s.t, s.procs[pid], a);
      var m := Micro(c, s.t, s.procs[pid], a);
      KeptParts(c, s.t, m);
      OthersStay(c, s, m.tables, pid);
    } else {
      GrowsSame(s.t);
    }
  }

  lemma KeptParts(c: Config, t: Tables, m: Moved)
    requires Kept(c, t, m)
    ensures TablesOk(c, m.tables) && Grows(t, m.tables) && ProcOk(c, m.tables, m.proc)
  {
    hide Apply.ApplyPatch, TablesOk, ProcOk, Grows;
  }

  lemma ResumeKeeps(c: Config, s: System, pid: nat, human: Option<string>, limit: nat, solo: bool)
    requires SystemOk(c, s)
    ensures var r := Do(c, s, Resume(pid, human, limit), solo); SystemOk(c, r) && Grows(s.t, r.t)
  {
    hide Apply.ApplyPatch, Link, Linked, PatchesMatch, StepsOk;
    GrowsSame(s.t);
    var p := NewProc(LoadState(human), s.t.current, None, limit);
    AtCurrent(c, s.t, p);
    hide TablesOk, ProcOk, NewProc;
  }

  /** Whatever happens next, the database and all processes stay in order, and what was committed stays. */
  lemma DoKeeps(c: Config, s: System, l: Label, solo: bool)
    requires SystemOk(c, s)
    ensures SystemOk(c, Do(c, s, l, solo)) && Grows(s.t, Do(c, s, l, solo).t)
  {
    hide Apply.ApplyPatch, TablesOk, ProcOk, Grows, Micro, Ordered;
    match l
    case Step(pid, a) => StepKeeps(c, s, pid, a, solo);
    case CrashOf(pid) => GrowsSame(s.t);
    case Resume(pid, human, limit) => ResumeKeeps(c, s, pid, human, limit, solo);
  }

  lemma {:induction false} RunKeeps(c: Config, s: System, labels: seq<Label>, solo: bool)
    requires SystemOk(c, s)
    ensures SystemOk(c, Run(c, s, labels, solo)) && Grows(s.t, Run(c, s, labels, solo).t)
    decreases |labels|
  {
    hide SystemOk, Grows, Do;
    if labels == [] {
      GrowsSame(s.t);
    } else {
      var mid := Run(c, s, labels[..|labels|-1], solo);
      RunKeeps(c, s, labels[..|labels|-1], solo);
      DoKeeps(c, mid, labels[|labels|-1], solo);
      GrowsThen(s.t, mid.t, Do(c, mid, labels[|labels|-1], solo).t);
    }
  }

  // ---- the beginning ----

  lemma CreatedOk(c: Config, s: State, input: string)
    requires s.version == 0
    ensures var t := CreatedTables(s, input);
      && Tidy(t) && Numbered(t) && PatchesMatch(t) && Linked(c, t)
      && t.current == s && t.steps == map[] && t.observations == [Observation(0, TaskInput, input)] && t.patches == []
  {
    hide Apply.ApplyPatch, Link;
    var t0 := Tables(s, map[0 := VersionRow(0, None, s)], [], [], map[], [], [], []);
    AppendQuiet(t0, 0, RunCreated, None);
    AppendQuiet(Log(t0, 0, RunCreated), 0, TaskInputEvent, None);
  }

  lemma SeededOk(c: Config, s: State, t: Tables, now: int)
    requires Tidy(t) && Numbered(t) && PatchesMatch(t) && Linked(c, t)
    requires Blank(s) && t.current == s && t.patches == [] && Seeded(c, s, t, now).Some?
    ensures var u := Seeded(c, s, t, now).value;
      && Tidy(u) && Numbered(u) && PatchesMatch(u) && Linked(c, u) && Grows(t, u)
      && u.steps == t.steps && u.observations == t.observations && u.current.counters.steps == 0
  {
    hide Apply.ApplyPatch, Link, Linked, PatchesMatch;
    if c.initial == [] {
      GrowsSame(t);
    } else {
      var patch := Patch(0, c.initial);
      var s1 := Apply.ApplyPatch(s, patch, None, c.policy.(schema := None), now).state;
      SeedLink(c, s, patch, now, t);
      PatchedVersion(c, t, s1, patch, 0);
      var t1 := WithVersion(RecordPatch(t, 0, patch, Some(s1.version)), s1, Some(|t.patches|), 0);
      AppendQuiet(t1, 0, PatchApplied, None);
      var u := Log(t1, 0, PatchApplied);
      QuietPatches(t1, u);
      QuietLinked(c, t1, u);
      GrowsThen(t, t1, u);
    }
  }

  lemma SeedLink(c: Config, s: State, patch: Patch, now: int, t: Tables)
    requires Blank(s) && patch == Patch(0, c.initial) && t.current == s
    requires Apply.ApplyPatch(s, patch, None, c.policy.(schema := None), now).Applied?
    ensures var s1 := Apply.ApplyPatch(s, patch, None, c.policy.(schema := None), now).state;
      PatchLink(c, t, patch, s1, 0) && s1.version == 1 && s1.counters == s.counters
  {
    ApplyFrame.PatchFrame(s, patch, None, c.policy.(schema := None), now);
    var s1 := Apply.ApplyPatch(s, patch, None, c.policy.(schema := None), now).state;
    assert SeedWrote(c, now, s, patch, s1);
    hide Apply.ApplyPatch, SeedWrote;
  }

  lemma StartOk(c: Config, s: State, input: string, now: int, limit: nat)
    requires Blank(s) && Start(c, s, input, now, limit).Some?
    ensures var r := Start(c, s, input, now, limit).value;
      && SystemOk(c, r) && r.t.versions[0].state == s && 0 in r.t.versions
  {
    hide Apply.ApplyPatch, Link, Linked, PatchesMatch;
    CreatedOk(c, s, input);
    var t := CreatedTables(s, input);
    SeededOk(c, s, t, now);
    hide CreatedTables, Seeded;
    var r := Start(c, s, input, now, limit).value;
    var u := Seeded(c, s, t, now).value;
    assert 0 in t.versions;
    FirstRow(c, u, r.t);
    AtCurrent(c, r.t, r.procs[0]);
  }

  lemma FirstRow(c: Config, t: Tables, u: Tables)
    requires Tidy(t) && Numbered(t) && PatchesMatch(t) && Linked(c, t)
    requires t.steps == map[] && |t.observations| == 1 && t.current.counters.steps == 0
    requires u == t.(steps := map[0 := StepRow(ObservationReady, 0, None, None, None)])
    ensures TablesOk(c, u)
  {
    hide Apply.ApplyPatch, Link, Linked, PatchesMatch;
    RowsAside(c, t, u);
  }

  lemma RowsAside(c: Config, t: Tables, u: Tables)
    requires Numbered(t) && PatchesMatch(t) && Linked(c, t) && u == t.(steps := u.steps)
    ensures PatchesMatch(u) && Linked(c, u)
  {
    hide Apply.ApplyPatch, Link;
  }
}
