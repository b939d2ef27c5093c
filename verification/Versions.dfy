/** What every interleaving of any number of processes keeps in the database. */
module Versions {
  import opened Domain
  import opened State
  import opened Tables
  import opened Lifecycle
  import Apply
  import ApplyFrame

  // ---- events and observations ----

  predicate EventsOk(events: seq<Event>) {
    forall i :: 0 <= i < |events| ==> events[i].seqno == i && events[i].id == EventName(i)
  }

  predicate ObservationsOk(obs: seq<Observation>) {
    forall i :: 0 <= i < |obs| ==> obs[i].id == i
  }

  predicate Holds(events: seq<Event>, x: Archived) {
    exists e <- events :: e.item == Some(x)
  }

  // ---- the version chain ----

  /** Equal but for the runtime's counters; the step counter is not excepted. */
  predicate SameContent(a: State, b: State) {
    a == b.(counters := a.counters) && a.counters.steps == b.counters.steps
  }

  /** The next version differs in counters and status only. */
  predicate Bookkeeping(a: State, b: State) {
    b == a.(counters := b.counters, status := b.status, version := a.version + 1)
  }

  /** `b` is the model's patch applied to the content of `a`; what the patch dropped is in the archive. */
  predicate ModelWrote(c: Config, base: State, known: set<string>, now: int, a: State, patch: Patch, b: State,
                       events: seq<Event>) {
    var r := Apply.ApplyPatch(base, patch, Some(known), c.policy, now);
    && SameContent(base, a) && known <= EventIds(events)
    && r.Applied? && b == r.state.(counters := b.counters, status := b.status) && b.counters.steps == a.counters.steps
    && b.status in {r.state.status, WaitingForHuman, Completed, Failed}
    && forall x <- r.archived :: Holds(events, x)
  }

  /** `b` is a ledger patch applied to the content of `a`. */
  predicate LedgerWrote(c: Config, base: State, now: int, a: State, patch: Patch, b: State) {
    var r := Apply.ApplyPatch(base, patch, None, c.policy, now);
    SameContent(base, a) && ApplyFrame.DomainOnly(patch.ops) && r.Applied? && b == r.state
  }

  /** `b` is the initial patch applied to the empty state `a`. */
  predicate SeedWrote(c: Config, now: int, a: State, patch: Patch, b: State) {
    var r := Apply.ApplyPatch(a, patch, None, c.policy.(schema := None), now);
    Blank(a) && patch == Patch(0, c.initial) && r.Applied? && b == r.state
  }

  /** How version `b` came out of the version before it. */
  ghost predicate Link(c: Config, a: State, b: VersionRow, patches: seq<PatchRow>, events: seq<Event>) {
    if b.patchId.None? then Bookkeeping(a, b.state)
    else
      && b.patchId.value < |patches|
      && var patch := patches[b.patchId.value].patch;
         || (exists base, known, now :: ModelWrote(c, base, known, now, a, patch, b.state, events))
         || (exists base, now :: LedgerWrote(c, base, now, a, patch, b.state))
         || (exists now :: SeedWrote(c, now, a, patch, b.state))
  }

  /** The versions are numbered 0 to current without a gap and the current state is the last of them. */
  ghost predicate Numbered(t: Tables) {
    && (forall v: nat :: v in t.versions <==> v <= t.current.version)
    && (forall v <- t.versions :: t.versions[v].state.version == v)
    && t.versions[t.current.version].state == t.current
  }

  /** Applied patch records and patch-carrying versions name each other, and the version is the expected one plus
      one. */
  predicate PatchesMatch(t: Tables) {
    && (forall v <- t.versions :: t.versions[v].patchId.Some? ==>
          var id := t.versions[v].patchId.value;
          id < |t.patches| && t.patches[id].resulting == Some(v) && v == t.patches[id].patch.expected + 1)
    && (forall i :: 0 <= i < |t.patches| && t.patches[i].resulting.Some? ==>
          var v := t.patches[i].resulting.value;
          v in t.versions && t.versions[v].patchId == Some(i))
  }

  ghost predicate Linked(c: Config, t: Tables)
    requires Numbered(t)
  {
    forall v: nat :: v < t.current.version ==> Link(c, t.versions[v].state, t.versions[v+1], t.patches, t.events)
  }

  /** The step rows are exactly 0 to the committed step counter. */
  ghost predicate StepsOk(t: Tables) {
    && (forall n: nat :: n in t.steps <==> n <= t.current.counters.steps)
    && (forall n <- t.steps :: t.steps[n].observation < |t.observations|)
  }

  ghost predicate TablesOk(c: Config, t: Tables) {
    && EventsOk(t.events) && ObservationsOk(t.observations)
    && Numbered(t) && PatchesMatch(t) && Linked(c, t) && StepsOk(t)
  }

  // ---- a process among others ----

  predicate Unplaced(pc: Pc) {
    pc.LoadState? || pc.LoadStep? || pc.Finalize? || pc.LogEnd? || pc.Stopped?
  }

  ghost predicate Proposal(c: Config, t: Tables, p: Proc) {
    p.pc.Commit? ==>
      && p.decision.Some?
      && exists known, now :: ProposedBy(c, t, p, known, now)
  }

  predicate ProposedBy(c: Config, t: Tables, p: Proc, known: set<string>, now: int)
    requires p.pc.Commit? && p.decision.Some?
  {
    var r := Apply.ApplyPatch(p.exec, p.decision.value.patch, Some(known), c.policy, now);
    && known <= EventIds(t.events)
    && r.Applied? && p.pc.target == Decided(r.state, p, p.decision.value.control) && p.pc.archived == r.archived
  }

  /** A process holds some committed version, counters aside; while that version is current it stands at the latest
      step. */
  predicate Anchored(t: Tables, exec: State, pc: Pc, step: nat) {
    && exec.version in t.versions && SameContent(exec, t.versions[exec.version].state)
    && (!Unplaced(pc) && exec.version == t.current.version ==> step == t.current.counters.steps)
  }

  predicate ObsKnown(t: Tables, obs: Option<Observation>) {
    obs.Some? ==> obs.value.id < |t.observations|
  }

  ghost predicate ProcOk(c: Config, t: Tables, p: Proc) {
    Anchored(t, p.exec, p.pc, p.step) && ObsKnown(t, p.obs) && Proposal(c, t, p)
  }

  // ---- how the tables may move ----

  /** Committed versions stay, everything else only grows, and at an unchanged version so do state and step rows. */
  predicate Grows(t: Tables, u: Tables) {
    && t.current.version <= u.current.version
    && (t.current.version == u.current.version ==> t.current == u.current)
    && (forall v <- t.versions :: v in u.versions && u.versions[v] == t.versions[v])
    && t.events <= u.events && t.observations <= u.observations && t.patches <= u.patches
  }

  /** A move that commits no version, opens no step and records no applied patch. */
  predicate Quiet(t: Tables, u: Tables) {
    && u.current == t.current && u.versions == t.versions
    && t.events <= u.events && EventsOk(u.events)
    && t.observations <= u.observations && ObservationsOk(u.observations)
    && t.patches <= u.patches && (forall i :: |t.patches| <= i < |u.patches| ==> u.patches[i].resulting.None?)
    && u.steps.Keys == t.steps.Keys && (forall n <- t.steps :: u.steps[n].observation == t.steps[n].observation)
  }

  lemma QuietThen(t: Tables, u: Tables, w: Tables)
    requires Quiet(t, u) && Quiet(u, w)
    ensures Quiet(t, w)
  {}

  predicate Tidy(t: Tables) {
    EventsOk(t.events) && ObservationsOk(t.observations)
  }

  lemma {:induction false} NextSeqIsLength(events: seq<Event>)
    requires EventsOk(events)
    ensures NextSeq(events) == |events|
  {
    if events != [] {
      NextSeqIsLength(events[..|events|-1]);
    }
  }

  lemma AppendQuiet(t: Tables, step: nat, kind: EventKind, item: Option<Archived>)
    requires Tidy(t)
    ensures Quiet(t, Append(t, step, kind, item))
  {
    NextSeqIsLength(t.events);
  }

  lemma {:induction false} WithItemsHolds(events: seq<Event>, step: nat, items: seq<Archived>)
    requires EventsOk(events)
    ensures var more := WithItems(events, step, items);
      EventsOk(more) && events <= more && forall x <- items :: Holds(more, x)
    decreases |items|
  {
    if items != [] {
      var n := |items| - 1;
      WithItemsHolds(events, step, items[..n]);
      var before := WithItems(events, step, items[..n]);
      var kind := if items[n].automatic then StateCompaction else PatchApplied;
      NextSeqIsLength(before);
      AppendHolds(before, step, kind, items[n], items[..n]);
      assert forall x <- items :: x in items[..n] || x == items[n];
    }
  }

  lemma AppendHolds(events: seq<Event>, step: nat, kind: EventKind, x: Archived, items: seq<Archived>)
    requires forall y <- items :: Holds(events, y)
    ensures forall y <- items :: Holds(WithEvent(events, step, kind, Some(x)), y)
    ensures Holds(WithEvent(events, step, kind, Some(x)), x)
  {
    var more := WithEvent(events, step, kind, Some(x));
    assert more[|more|-1].item == Some(x);
    forall y | y in items ensures Holds(more, y) {
      HoldsMore(events, more, y);
    }
  }

  lemma HoldsMore(es: seq<Event>, more: seq<Event>, x: Archived)
    requires es <= more && Holds(es, x)
    ensures Holds(more, x)
  {
    var i :| 0 <= i < |es| && es[i].item == Some(x);
    assert more[i] == es[i];
  }

  lemma MarkQuiet(t: Tables, step: nat, phase: Phase)
    requires Tidy(t)
    ensures Quiet(t, MarkPhase(t, step, phase))
  {}

  lemma ObservationQuiet(t: Tables, kind: ObservationKind, content: string)
    requires Tidy(t)
    ensures Quiet(t, SaveObservation(t, kind, content))
  {}

  // ---- what quiet moves keep ----

  lemma KnownMore(es: seq<Event>, more: seq<Event>)
    requires es <= more
    ensures EventIds(es) <= EventIds(more)
  {
    forall id | id in EventIds(es) ensures id in EventIds(more) {
      var i :| 0 <= i < |es| && es[i].id == id;
      assert more[i] == es[i];
    }
  }

  lemma ModelWroteMore(c: Config, base: State, known: set<string>, now: int, a: State, patch: Patch, b: State,
                       es: seq<Event>, more: seq<Event>)
    requires ModelWrote(c, base, known, now, a, patch, b, es) && es <= more
    ensures ModelWrote(c, base, known, now, a, patch, b, more)
  {
    KnownMore(es, more);
    forall x | x in Apply.ApplyPatch(base, patch, Some(known), c.policy, now).archived ensures Holds(more, x) {
      HoldsMore(es, more, x);
    }
  }

  lemma LinkMore(c: Config, a: State, b: VersionRow, ps: seq<PatchRow>, es: seq<Event>, morePs: seq<PatchRow>,
                 moreEs: seq<Event>)
    requires Link(c, a, b, ps, es) && ps <= morePs && es <= moreEs
    ensures Link(c, a, b, morePs, moreEs)
  {
    if b.patchId.Some? {
      var patch := ps[b.patchId.value].patch;
      assert morePs[b.patchId.value].patch == patch;
      if base, known, now :| ModelWrote(c, base, known, now, a, patch, b.state, es) {
        ModelWroteMore(c, base, known, now, a, patch, b.state, es, moreEs);
      }
    }
  }

  lemma LinkedMore(c: Config, t: Tables, u: Tables)
    requires Numbered(t) && Linked(c, t) && Grows(t, u)
    ensures forall v: nat ::
      v < t.current.version ==> Link(c, u.versions[v].state, u.versions[v+1], u.patches, u.events)
  {
    forall v: nat | v < t.current.version
      ensures Link(c, u.versions[v].state, u.versions[v+1], u.patches, u.events)
    {
      assert v in t.versions && v + 1 in t.versions;
      LinkMore(c, t.versions[v].state, t.versions[v+1], t.patches, t.events, u.patches, u.events);
    }
  }

  lemma QuietPatches(t: Tables, u: Tables)
    requires PatchesMatch(t) && Quiet(t, u)
    ensures PatchesMatch(u)
  {
    forall i | 0 <= i < |u.patches| && u.patches[i].resulting.Some?
      ensures var v := u.patches[i].resulting.value; v in u.versions && u.versions[v].patchId == Some(i)
    {
      assert u.patches[i] == t.patches[i];
    }
  }

  lemma QuietLinked(c: Config, t: Tables, u: Tables)
    requires Numbered(t) && Linked(c, t) && Quiet(t, u)
    ensures Numbered(u) && Linked(c, u) && Grows(t, u)
  {
    hide Apply.ApplyPatch, Link;
    LinkedMore(c, t, u);
  }

  lemma QuietKeeps(c: Config, t: Tables, u: Tables)
    requires TablesOk(c, t) && Quiet(t, u)
    ensures TablesOk(c, u) && Grows(t, u)
  {
    hide Apply.ApplyPatch, Link, Linked, PatchesMatch, Numbered;
    QuietPatches(t, u);
    QuietLinked(c, t, u);
  }

  lemma GrowsThen(t: Tables, u: Tables, w: Tables)
    requires Grows(t, u) && Grows(u, w)
    ensures Grows(t, w)
  {}

  /** Whatever others do, a process stays anchored. */
  lemma ProcStays(c: Config, t: Tables, u: Tables, p: Proc)
    requires ProcOk(c, t, p) && Grows(t, u) && Numbered(t) && Numbered(u)
    ensures ProcOk(c, u, p)
  {
    if p.pc.Commit? {
      var known, now :| ProposedBy(c, t, p, known, now);
      KnownMore(t.events, u.events);
      assert ProposedBy(c, u, p, known, now);
    }
  }

  // ---- commits ----

  /** The tables with one more version. */
  function WithVersion(t: Tables, s: State, patchId: Option<nat>, step: nat): Tables {
    t.(current := s, versions := t.versions[s.version := VersionRow(step, patchId, s)])
  }

  /** One more version, from bookkeeping. */
  lemma PlainVersion(c: Config, t: Tables, s: State, step: nat)
    requires Numbered(t) && PatchesMatch(t) && Linked(c, t)
    requires Bookkeeping(t.current, s)
    ensures var u := WithVersion(t, s, None, step);
      Numbered(u) && PatchesMatch(u) && Linked(c, u) && Grows(t, u)
  {
    hide Apply.ApplyPatch;
    var u := WithVersion(t, s, None, step);
    VersionAppended(c, t, u, s, None, step);
  }

  lemma VersionAppended(c: Config, t: Tables, u: Tables, s: State, patchId: Option<nat>, step: nat)
    requires Numbered(t) && Linked(c, t)
    requires s.version == t.current.version + 1
    requires t.events == u.events && t.observations == u.observations && t.patches <= u.patches
    requires u.current == s && u.versions == t.versions[s.version := VersionRow(step, patchId, s)]
    requires Link(c, t.current, VersionRow(step, patchId, s), u.patches, u.events)
    ensures Numbered(u) && Linked(c, u) && Grows(t, u)
  {
    hide Apply.ApplyPatch, Link;
    LinkedMore(c, t, u);
  }

  lemma PatchedPatches(t: Tables, u: Tables, s: State, patch: Patch, step: nat)
    requires PatchesMatch(t) && s.version !in t.versions && s.version == patch.expected + 1
    requires u.patches == t.patches + [PatchRow(step, patch, Some(s.version))]
    requires u.versions == t.versions[s.version := VersionRow(step, Some(|t.patches|), s)]
    ensures PatchesMatch(u)
  {}

  /** One more version, from a patch that names the version it applies to. */
  lemma PatchedVersion(c: Config, t: Tables, s: State, patch: Patch, step: nat)
    requires Numbered(t) && PatchesMatch(t) && Linked(c, t)
    requires s.version == t.current.version + 1 && patch.expected == t.current.version
    requires Link(c, t.current, VersionRow(step, Some(|t.patches|), s),
                  t.patches + [PatchRow(step, patch, Some(s.version))], t.events)
    ensures var u := WithVersion(RecordPatch(t, step, patch, Some(s.version)), s, Some(|t.patches|), step);
      Numbered(u) && PatchesMatch(u) && Linked(c, u) && Grows(t, u)
  {
    hide Apply.ApplyPatch, Link;
    var u := WithVersion(RecordPatch(t, step, patch, Some(s.version)), s, Some(|t.patches|), step);
    PatchedPatches(t, u, s, patch, step);
    VersionAppended(c, t, u, s, Some(|t.patches|), step);
    hide PatchesMatch, Linked;
  }

  /** The primary key of the version history is never in the way of a compare-and-set. */
  lemma NoKeyConflict(t: Tables, s: State, expected: nat, patchId: Option<nat>, step: nat)
    requires Numbered(t) && s.version == expected + 1
    ensures CommitState(t, s, expected, patchId, step).Wrote? <==> expected == t.current.version
    ensures CommitState(t, s, expected, patchId, step).StaleWrite? <==> expected != t.current.version
  {}
}
