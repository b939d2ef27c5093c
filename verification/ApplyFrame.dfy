/** What a patch cannot do: end a run, touch runtime counters, or cite events the archive does not hold. */
module ApplyFrame {
  import opened Domain
  import opened State
  import opened Apply
  import opened ApplyIds
  import opened ApplyKeeps

  // ---- status, counters and budget ----

  /** The status stays, or moves along an allowed transition to one of the statuses a model may set. */
  predicate StatusMove(before: Status, after: Status) {
    || after == before
    || (before !in TERMINAL && after in MODEL_SETTABLE)
  }

  predicate RuntimeFieldsKept(s: State, t: State) {
    s.version == t.version && s.counters == t.counters && s.maxSteps == t.maxSteps
  }

  lemma ListOpsFrame(s: State, op: Op, norm: string -> string, now: int)
    requires TouchesLists(op) && ApplyOp(s, op, norm, now).Done?
    ensures RuntimeFieldsKept(s, ApplyOp(s, op, norm, now).state)
    ensures ApplyOp(s, op, norm, now).state.status == s.status
  {
    hide FactOp, HypothesisOp, PlanOp, IssueOp, TableOp, ScalarOp;
    if IsFactOp(op) {
      FactOpFrame(s, op, norm);
    } else if IsHypothesisOp(op) {
      HypothesisOpFrame(s, op, now);
    } else if IsPlanOp(op) {
      PlanOpFrame(s, op);
    } else {
      IssueOpFrame(s, op);
    }
  }

  lemma PlanOpFrame(s: State, op: Op)
    requires IsPlanOp(op) && PlanOp(s, op).Done?
    ensures var t := PlanOp(s, op).state; t == s.(artifacts := t.artifacts, plan := t.plan)
  {
    hide Find, Remove, Replace, PlanOf, TakenIds;
  }

  lemma IssueOpFrame(s: State, op: Op)
    requires IsIssueOp(op) && IssueOp(s, op).Done?
    ensures var t := IssueOp(s, op).state;
      t == s.(pending := t.pending, blockers := t.blockers, questions := t.questions)
  {
    hide Find, Remove, TakenIds;
  }

  lemma FactOpFrame(s: State, op: Op, norm: string -> string)
    requires IsFactOp(op) && FactOp(s, op, norm).Done?
    ensures FactOp(s, op, norm).state == s.(facts := FactOp(s, op, norm).state.facts)
  {
    if op.ArchiveFacts? {
      ArchiveAllFrame(s, op.ids, op.reason);
    }
  }

  lemma HypothesisOpFrame(s: State, op: Op, now: int)
    requires IsHypothesisOp(op) && HypothesisOp(s, op, now).Done?
    ensures var t := HypothesisOp(s, op, now).state; t == s.(facts := t.facts, hyps := t.hyps, rejected := t.rejected)
  {}

  lemma OpFrame(s: State, op: Op, norm: string -> string, now: int)
    requires ApplyOp(s, op, norm, now).Done?
    ensures RuntimeFieldsKept(s, ApplyOp(s, op, norm, now).state)
    ensures StatusMove(s.status, ApplyOp(s, op, norm, now).state.status)
  {
    if TouchesLists(op) {
      ListOpsFrame(s, op, norm, now);
    } else if IsScalarOp(op) {
    } else if IsTableOp(op) {
    }
  }

  lemma {:induction false} OpsFrame(s: State, ops: seq<Op>, norm: string -> string, now: int)
    requires ApplyOps(s, ops, norm, now).AllDone?
    ensures RuntimeFieldsKept(s, ApplyOps(s, ops, norm, now).state)
    ensures StatusMove(s.status, ApplyOps(s, ops, norm, now).state.status)
    decreases |ops|
  {
    if ops != [] {
      OpsFrame(s, ops[..|ops|-1], norm, now);
      OpFrame(ApplyOps(s, ops[..|ops|-1], norm, now).state, ops[|ops|-1], norm, now);
    }
  }

  /** An accepted patch names the version it applies to and moves it by one; counters and budget are out of its reach,
      and it neither creates nor leaves a terminal status. */
  lemma PatchFrame(s: State, patch: Patch, archive: Option<set<string>>, pol: Policy, now: int)
    requires ApplyPatch(s, patch, archive, pol, now).Applied?
    ensures patch.expected == s.version
    ensures var t := ApplyPatch(s, patch, archive, pol, now).state;
      && t.version == s.version + 1 && t.counters == s.counters && t.maxSteps == s.maxSteps
      && StatusMove(s.status, t.status)
  {
    AppliedShape(s, patch, archive, pol, now);
    OpsFrame(s, patch.ops, pol.norm, now);
  }

  // ---- evidence ----

  /** A patch passes the evidence check exactly if every operation that needs evidence cites some, and every cited
      event is in the archive, if there is one to ask. */
  lemma EvidenceAcceptedIff(ops: seq<Op>, archive: Option<set<string>>)
    ensures CheckEvidence(ops, archive).None? <==>
            && (forall op <- ops :: NeedsEvidence(op) ==> Citations(op) != [])
            && (archive.Some? ==> forall op <- ops, e <- Citations(op) :: e in archive.value)
  {
    hide Citations, NeedsEvidence;
    if CheckEvidence(ops, archive).Some? {
      var i := CheckEvidence(ops, archive).value.1;
      assert ops[i] in ops;
    }
  }

  /** The event an artifact comes from is checked like any evidence, except that the empty string passes for none. */
  lemma OriginAcceptedIff(id: string, artifact: ArtifactBody, archive: set<string>)
    ensures CheckEvidence([AddArtifact(id, artifact)], Some(archive)).None? <==>
            artifact.origin.None? || artifact.origin.value == "" || artifact.origin.value in archive
  {
    var op := AddArtifact(id, artifact);
    EvidenceAcceptedIff([op], Some(archive));
    assert op in [op];
    if artifact.origin.Some? && artifact.origin.value != "" {
      assert Citations(op) == [artifact.origin.value];
    }
    hide CheckEvidence;
  }

  // ---- provenance ----

  /** Every cited event is known, and every fact cites at least one. */
  predicate Grounded(s: State, known: set<string>) {
    && (forall f <- s.facts :: f.body.evidence != [] && forall e <- f.body.evidence :: e in known)
    && (forall h <- s.hyps, e <- h.body.evidence :: e in known)
    && (forall r <- s.rejected, e <- r.body.evidence :: e in known)
    && (forall a <- s.artifacts, e <- OriginCitation(a.body) :: e in known)
  }

  lemma {:induction false} ReplaceOnlyAdds<T>(xs: seq<Keyed<T>>, id: string, body: T)
    ensures forall y <- Replace(xs, id, body) :: y in xs || y == Keyed(id, body)
  {
    if xs != [] {
      assert xs == [xs[0]] + xs[1..];
      ReplaceOnlyAdds(xs[1..], id, body);
    }
  }

  lemma FactOpGrounded(s: State, op: Op, norm: string -> string, known: set<string>)
    requires Grounded(s, known) && (forall e <- Citations(op) :: e in known)
    requires IsFactOp(op) && FactOp(s, op, norm).Done?
    ensures Grounded(FactOp(s, op, norm).state, known)
  {
    match op
    case AddFact(_, _, _, _) =>
    case SupersedeFact(id, st, c, e) => ReplaceOnlyAdds(s.facts, id, FactBody(st, c, e));
    case RemoveFact(id, _) => RemoveOnlyRemoves(s.facts, Find(s.facts, id).value);
    case ArchiveFacts(ids, reason) => ArchiveAllFrame(s, ids, reason);
  }

  lemma HypothesisOpGrounded(s: State, op: Op, now: int, known: set<string>)
    requires Grounded(s, known) && (forall e <- Citations(op) :: e in known)
    requires IsHypothesisOp(op) && HypothesisOp(s, op, now).Done?
    ensures Grounded(HypothesisOp(s, op, now).state, known)
  {
    hide Ids, Find, Remove, Replace, TakenIds;
    if op.UpdateHypothesis? {
      var b := Find(s.hyps, op.id).value.body;
      ReplaceOnlyAdds(s.hyps, op.id,
                      FactBody(op.newStatement.GetOr(b.statement), op.newConfidence.GetOr(b.confidence),
                               op.newEvidence.GetOr(b.evidence)));
    } else if op.RejectHypothesis? {
      RejectGrounded(s, op, now, known);
    } else if op.PromoteHypothesis? && op.id !in Ids(s.facts) {
      RemoveOnlyRemoves(s.hyps, Find(s.hyps, op.id).value);
    }
  }

  lemma RejectGrounded(s: State, op: Op, now: int, known: set<string>)
    requires Grounded(s, known) && (forall e <- Citations(op) :: e in known)
    requires op.RejectHypothesis? && HypothesisOp(s, op, now).Done?
    ensures Grounded(HypothesisOp(s, op, now).state, known)
  {
    if op.id !in Ids(s.rejected) {
      var h := Find(s.hyps, op.id).value;
      RemoveOnlyRemoves(s.hyps, h);
      assert forall e <- h.body.evidence :: e in known;
    }
  }

  lemma OpGrounded(s: State, op: Op, norm: string -> string, now: int, known: set<string>)
    requires Grounded(s, known) && (forall e <- Citations(op) :: e in known)
    requires ApplyOp(s, op, norm, now).Done?
    ensures Grounded(ApplyOp(s, op, norm, now).state, known)
  {
    if !TouchesLists(op) {
      OtherOpsKeepLists(s, op, norm, now);
    } else if IsFactOp(op) {
      FactOpGrounded(s, op, norm, known);
    } else if IsHypothesisOp(op) {
      HypothesisOpGrounded(s, op, now, known);
    } else if IsPlanOp(op) {
      PlanOpGrounded(s, op, known);
    } else {
      IssueOpFrame(s, op);
    }
  }

  lemma PlanOpGrounded(s: State, op: Op, known: set<string>)
    requires Grounded(s, known) && (forall e <- Citations(op) :: e in known)
    requires IsPlanOp(op) && PlanOp(s, op).Done?
    ensures Grounded(PlanOp(s, op).state, known)
  {
    hide Remove, Find, Replace, PlanOf, TakenIds;
    if op.RemoveArtifact? {
      RemoveOnlyRemoves(s.artifacts, Find(s.artifacts, op.id).value);
    }
  }

  lemma {:induction false} OpsGrounded(s: State, ops: seq<Op>, norm: string -> string, now: int, known: set<string>)
    requires Grounded(s, known) && (forall op <- ops, e <- Citations(op) :: e in known)
    requires ApplyOps(s, ops, norm, now).AllDone?
    ensures Grounded(ApplyOps(s, ops, norm, now).state, known)
    decreases |ops|
  {
    if ops != [] {
      assert forall op <- ops[..|ops|-1] :: op in ops;
      OpsGrounded(s, ops[..|ops|-1], norm, now, known);
      OpGrounded(ApplyOps(s, ops[..|ops|-1], norm, now).state, ops[|ops|-1], norm, now, known);
    }
  }

  /** An accepted patch keeps every citation inside the archive it was checked against. Without an archive to check
      against, this takes a patch that cites nothing. */
  lemma PatchGrounded(s: State, patch: Patch, archive: Option<set<string>>, pol: Policy, now: int, known: set<string>)
    requires Grounded(s, known)
    requires if archive.Some? then archive.value <= known else forall op <- patch.ops :: Citations(op) == []
    requires ApplyPatch(s, patch, archive, pol, now).Applied?
    ensures Grounded(ApplyPatch(s, patch, archive, pol, now).state, known)
  {
    AppliedShape(s, patch, archive, pol, now);
    forall op, e | op in patch.ops && e in Citations(op) ensures e in known {
      if archive.Some? {
        assert e in archive.value;
      }
    }
    OpsGrounded(s, patch.ops, pol.norm, now, known);
    var s1 := ApplyOps(s, patch.ops, pol.norm, now).state;
    CompactRejectedKeeps(s1, pol.limits);
  }

  // ---- runtime-authored ledger patches ----

  predicate DomainOnly(ops: seq<Op>) {
    forall op <- ops :: op.SetPath? || op.DeletePath?
  }

  function EditOp(d: Dict, op: Op): Result<Dict>
    requires op.SetPath? || op.DeletePath?
  {
    if op.SetPath? then Edit(d, op.path, Set(op.value)) else Edit(d, op.path, Delete)
  }

  /** The domain after a run of set and delete operations. */
  function EditAll(d: Dict, ops: seq<Op>): Result<Dict>
    requires DomainOnly(ops)
    decreases |ops|
  {
    if ops == [] then Ok(d)
    else
      match EditAll(d, ops[..|ops|-1])
      case Err(c) => Err(c)
      case Ok(d1) => EditOp(d1, ops[|ops|-1])
  }

  lemma DomainOpOnlyEditsDomain(s: State, op: Op, norm: string -> string, now: int)
    requires op.SetPath? || op.DeletePath?
    ensures ApplyOp(s, op, norm, now).Done? <==> EditOp(s.domain, op).Ok?
    ensures EditOp(s.domain, op).Ok? ==> ApplyOp(s, op, norm, now).state == s.(domain := EditOp(s.domain, op).value)
  {}

  lemma {:induction false} DomainOpsOnlyEditDomain(s: State, ops: seq<Op>, norm: string -> string, now: int)
    requires DomainOnly(ops)
    ensures ApplyOps(s, ops, norm, now).AllDone? <==> EditAll(s.domain, ops).Ok?
    ensures EditAll(s.domain, ops).Ok?
      ==> ApplyOps(s, ops, norm, now).state == s.(domain := EditAll(s.domain, ops).value)
    decreases |ops|
  {
    if ops != [] {
      DomainOpsOnlyEditDomain(s, ops[..|ops|-1], norm, now);
      if ApplyOps(s, ops[..|ops|-1], norm, now).AllDone? {
        DomainOpOnlyEditsDomain(ApplyOps(s, ops[..|ops|-1], norm, now).state, ops[|ops|-1], norm, now);
      }
    }
  }
}
