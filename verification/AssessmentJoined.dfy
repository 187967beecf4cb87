/** Joined datasets satisfy what the engine assumes: from traces and receipts to an accepted decision. */
module AssessmentJoined {
  import opened CodeUnits
  import opened Wrappers
  import opened Sorting
  import opened Grouping
  import opened EvidenceModel
  import opened EvidenceJoin
  import opened EvidenceAdmission
  import opened EvidencePlacement
  import opened EvidenceOrder
  import opened EvidenceResult
  import C = AssessmentContract
  import opened AssessmentEngine
  import opened AssessmentRows
  import opened AssessmentCandidate
  import opened AssessmentPolicies
  import opened AssessmentDecision
  import Z = AssessmentSize

  /** The executions are those of the retained traces. */
  lemma ExecutionMembers(n: Names, p: Protocol, s: Placement, ts: seq<Trace>)
    ensures forall e :: e in Executions(n, p, s, ts) <==> exists t :: t in ts && e == ExecutionOfTrace(n, p, s, t)
  {
    hide OutcomeOf, TraceAdmissible;
    var made := Gather(ts, ExecutionsBy(n, p, s));
    GatherMembers(ts, ExecutionsBy(n, p, s));
    SortPermutes(made, ExecutionLe());
    SameMembers(Executions(n, p, s, ts), made);
    forall e ensures e in made <==> exists t :: t in ts && e == ExecutionOfTrace(n, p, s, t) {
      if t :| t in ts && e == ExecutionOfTrace(n, p, s, t) { assert e in ExecutionsBy(n, p, s)(t); }
      if e in made { var t :| t in ts && e in ExecutionsBy(n, p, s)(t); }
    }
  }

  lemma RetainedFromInputs(n: Names, p: Protocol, inputs: seq<Trace>, t: Trace)
    requires CollisionFree(n) && (forall u :: u in inputs ==> TraceAdmissible(p, u)) && t in TraceRecords(n, inputs)
    ensures WellFormedTrace(t) && t.protocolDigest == p.digest
  {
    RetainedIffUnambiguous(n, inputs, t);
  }

  lemma OutcomeShape(n: Names, s: Placement, t: Trace)
    ensures var o := OutcomeOf(n, s, t);
            && (!t.status.Success? ==> o.FailureZero? || o.AmbiguousExecution?) && (o.FailureZero? ==> !t.status.Success?)
  {
    hide ConflictKeys, ExecutionKey, TraceKey;
  }

  /** A scored outcome carries a score in the canonical range. */
  lemma ScoredRange(n: Names, p: Protocol, inputs: seq<Trace>, rs: seq<Receipt>, t: Trace, x: Record)
    requires CollisionFree(n) && (forall r :: r in rs ==> Genuine(n, r)) && t in TraceRecords(n, inputs)
    requires OutcomeOf(n, Placed(n, p, inputs, rs), t) == ScoredOutcome(x)
    ensures x.row.evidence.outcome.Scored? && 0.0 <= x.row.evidence.outcome.score <= 1.0
  {
    ScoredExactlyWhen(n, p, inputs, rs, t, x);
    hide CollisionFree, TraceRecords, OutcomeOf, Placed, LineageMatches, TraceKey, EvidenceKey, OneVerificationContext, Rejection;
    var r :| SoleReceipt(n, p, rs, t, r) && x == RecordOf(n, r);
    assert Genuine(n, r);
  }

  lemma JoinedExecutionOk(n: Names, p: Protocol, inputs: seq<Trace>, rs: seq<Receipt>, t: Trace)
    requires CollisionFree(n) && (forall r :: r in rs ==> Genuine(n, r)) && t in TraceRecords(n, inputs)
    requires forall u :: u in inputs ==> TraceAdmissible(p, u)
    ensures ExecutionOk(ExecutionOfTrace(n, p, Placed(n, p, inputs, rs), t))
  {
    hide Placed, TraceAdmissible, WellFormedTrace, TraceRecords, CollisionFree, Genuine, OutcomeOf, ExecutionKey;
    RetainedFromInputs(n, p, inputs, t);
    var s := Placed(n, p, inputs, rs);
    OutcomeShape(n, s, t);
    if OutcomeOf(n, s, t).ScoredOutcome? { ScoredRange(n, p, inputs, rs, t, OutcomeOf(n, s, t).record); }
  }

  /** A case replicate and a profile identify one retained trace. */
  lemma IdentityTells(n: Names, p: Protocol, inputs: seq<Trace>, t: Trace, u: Trace)
    requires CollisionFree(n) && (forall v :: v in inputs ==> TraceAdmissible(p, v))
    requires t in TraceRecords(n, inputs) && u in TraceRecords(n, inputs)
    requires t.caseId == u.caseId && t.replicateId == u.replicateId && t.profileId == u.profileId
    ensures t == u
  {
    RetainedIffUnambiguous(n, inputs, t);
    RetainedIffUnambiguous(n, inputs, u);
    RetainedFromInputs(n, p, inputs, t);
    RetainedFromInputs(n, p, inputs, u);
    hide TraceAdmissible, TraceRecords, WellFormedTrace;
    assert LogicalKey(n, t) == LogicalKey(n, u);
  }

  lemma RetainedDistinct(n: Names, inputs: seq<Trace>)
    requires CollisionFree(n)
    ensures NoDuplicates(TraceRecords(n, inputs))
  {
    var ts := TraceRecords(n, inputs);
    if ts != [] { RetainedIffUnambiguous(n, inputs, ts[0]); }
  }

  lemma ExecutionsOnce(n: Names, p: Protocol, s: Placement, ts: seq<Trace>)
    requires NoDuplicates(ts)
    ensures NoDuplicates(Executions(n, p, s, ts))
  {
    hide OutcomeOf, TraceAdmissible;
    GatherNoDuplicates(ts, ExecutionsBy(n, p, s));
    SortNoDuplicates(Gather(ts, ExecutionsBy(n, p, s)), ExecutionLe());
  }

  lemma IdentityTellsExecution(n: Names, p: Protocol, inputs: seq<Trace>, s: Placement, a: Execution, b: Execution)
    requires CollisionFree(n) && forall v :: v in inputs ==> TraceAdmissible(p, v)
    requires var es := Executions(n, p, s, TraceRecords(n, inputs)); a in es && b in es
    requires IdentityOf(a) == IdentityOf(b)
    ensures a == b
  {
    var ts := TraceRecords(n, inputs);
    hide TraceRecords, OutcomeOf, TraceAdmissible, CollisionFree, Executions, ExecutionKey, SplitBucket;
    ExecutionMembers(n, p, s, ts);
    var t :| t in ts && a == ExecutionOfTrace(n, p, s, t);
    var u :| u in ts && b == ExecutionOfTrace(n, p, s, u);
    IdentityTells(n, p, inputs, t, u);
  }

  lemma ExecutionsDistinct(n: Names, p: Protocol, inputs: seq<Trace>, s: Placement)
    requires CollisionFree(n) && forall v :: v in inputs ==> TraceAdmissible(p, v)
    ensures DistinctIdentities(Executions(n, p, s, TraceRecords(n, inputs)))
  {
    var es := Executions(n, p, s, TraceRecords(n, inputs));
    hide TraceRecords, TraceAdmissible, CollisionFree, Executions, IdentityOf;
    RetainedDistinct(n, inputs);
    ExecutionsOnce(n, p, s, TraceRecords(n, inputs));
    forall a, b | a in es && b in es && IdentityOf(a) == IdentityOf(b) ensures a == b {
      IdentityTellsExecution(n, p, inputs, s, a, b);
    }
    DistinctImages(IdentityOf, es);
  }

  function PairIdOf(t: Trace): PairId { PairId(t.caseId, t.replicateId) }

  /** The engine's pairs are as many as the dataset's case replicates. */
  lemma PairCountAgrees(n: Names, p: Protocol, inputs: seq<Trace>, s: Placement)
    requires CollisionFree(n) && forall v :: v in inputs ==> TraceAdmissible(p, v)
    ensures var ts := TraceRecords(n, inputs); |LogicalPairs(Executions(n, p, s, ts))| == |LogicalUnits(n, ts)|
  {
    var ts := TraceRecords(n, inputs);
    var es := Executions(n, p, s, ts);
    forall a, b | a in ts && b in ts ensures PairKey(n, a) == PairKey(n, b) <==> PairIdOf(a) == PairIdOf(b) {
      RetainedFromInputs(n, p, inputs, a);
      RetainedFromInputs(n, p, inputs, b);
      SamePairKey(n, a, b);
    }
    hide TraceRecords, TraceAdmissible, PairKey;
    CoarserKeys(ts, PairBy(n), PairIdOf);
    CoarserKeys(ts, PairIdOf, PairBy(n));
    UnitCount(n, ts);
    ExecutionPairs(n, p, s, ts);
    SortPermutes(Keys(es, PairOfExecution), PairOrder());
  }

  lemma SamePairKey(n: Names, a: Trace, b: Trace)
    requires CollisionFree(n) && a.protocolDigest == b.protocolDigest
    ensures PairKey(n, a) == PairKey(n, b) <==> PairIdOf(a) == PairIdOf(b)
  {
    assert n.digest(PairOf(a.protocolDigest, a.caseId, a.replicateId)) == n.digest(PairOf(b.protocolDigest, b.caseId, b.replicateId))
      <==> PairOf(a.protocolDigest, a.caseId, a.replicateId) == PairOf(b.protocolDigest, b.caseId, b.replicateId);
  }

  lemma UnitCount(n: Names, ts: seq<Trace>)
    ensures |LogicalUnits(n, ts)| == |Keys(ts, PairBy(n))|
  {
    var keys := Keys(ts, PairBy(n));
    SortPermutes(keys, ByKey(Itself));
    SameMembers(PairKeys(n, ts), keys);
    forall k | k in PairKeys(n, ts) ensures |FirstOfPair(n, ts)(k)| == 1 { GroupMembers(ts, PairBy(n), k); }
    hide Sort;
    GatherSingles(PairKeys(n, ts), FirstOfPair(n, ts));
  }

  lemma ExecutionPairs(n: Names, p: Protocol, s: Placement, ts: seq<Trace>)
    ensures |Keys(Executions(n, p, s, ts), PairOfExecution)| == |Keys(ts, PairIdOf)|
  {
    hide TraceAdmissible, OutcomeOf, Executions;
    var es := Executions(n, p, s, ts);
    ExecutionMembers(n, p, s, ts);
    KeysAre(es, PairOfExecution);
    KeysAre(ts, PairIdOf);
    forall k ensures k in Keys(es, PairOfExecution) <==> k in Keys(ts, PairIdOf) {
      if k in Keys(es, PairOfExecution) {
        var e :| e in es && PairOfExecution(e) == k;
        var t :| t in ts && e == ExecutionOfTrace(n, p, s, t);
        assert PairIdOf(t) == k;
      }
      if k in Keys(ts, PairIdOf) {
        var t :| t in ts && PairIdOf(t) == k;
        var e := ExecutionOfTrace(n, p, s, t);
        assert e in es && PairOfExecution(e) == k;
      }
    }
    KeysDistinct(es, PairOfExecution);
    KeysDistinct(ts, PairIdOf);
    SameMembersPermute(Keys(es, PairOfExecution), Keys(ts, PairIdOf));
    SameSize(Keys(es, PairOfExecution), Keys(ts, PairIdOf));
  }

  lemma ExecutionsOk(n: Names, p: Protocol, inputs: seq<Trace>, rs: seq<Receipt>)
    requires CollisionFree(n) && (forall r :: r in rs ==> Genuine(n, r)) && (forall u :: u in inputs ==> TraceAdmissible(p, u))
    requires MetadataOk(n, TraceRecords(n, inputs))
    ensures Facts(Executions(n, p, Placed(n, p, inputs, rs), TraceRecords(n, inputs)))
  {
    var ts, s := TraceRecords(n, inputs), Placed(n, p, inputs, rs);
    var es := Executions(n, p, s, ts);
    ExecutionMembers(n, p, s, ts);
    hide TraceRecords, TraceAdmissible, Executions, Placed, CollisionFree, Genuine, ExecutionOk, OutcomeOf, ExecutionKey, SplitBucket;
    forall e | e in es ensures ExecutionOk(e) {
      var t :| t in ts && e == ExecutionOfTrace(n, p, s, t);
      JoinedExecutionOk(n, p, inputs, rs, t);
    }
    forall a, b | a in es && b in es && a.trace.caseId == b.trace.caseId ensures a.trace.groupId == b.trace.groupId {
      var t :| t in ts && a == ExecutionOfTrace(n, p, s, t);
      var u :| u in ts && b == ExecutionOfTrace(n, p, s, u);
      assert SharedMetadata(t, u);
    }
  }

  /** Whatever the inputs, a joined dataset satisfies the engine's assumptions. */
  lemma JoinedFacts(n: Names, p: Protocol, inputs: seq<Trace>, rs: seq<Receipt>)
    requires CollisionFree(n) && (forall r :: r in rs ==> Genuine(n, r)) && Join(n, p, inputs, rs).Ok?
    ensures var d := Join(n, p, inputs, rs).value;
            Facts(d.executions) && DistinctIdentities(d.executions) && |LogicalPairs(d.executions)| == d.counts.caseReplicates
  {
    hide DatasetOf, TraceRecords, TraceAdmissible, Executions, Placed, CollisionFree, Genuine, MetadataOk, Facts, DistinctIdentities, LogicalPairs, LogicalUnits;
    var s := Placed(n, p, inputs, rs);
    ExecutionsOk(n, p, inputs, rs);
    ExecutionsDistinct(n, p, inputs, s);
    PairCountAgrees(n, p, inputs, s);
    DatasetExecutions(n, p, inputs, rs);
  }

  lemma DatasetExecutions(n: Names, p: Protocol, inputs: seq<Trace>, rs: seq<Receipt>)
    ensures var d, ts := DatasetOf(n, p, inputs, rs), TraceRecords(n, inputs);
            d.executions == Executions(n, p, Placed(n, p, inputs, rs), ts) && d.counts.caseReplicates == |LogicalUnits(n, ts)|
  {
    hide TraceRecords, Executions, PlacedFor, Admit, LogicalUnits, CaseUnits, SortCompact, SortStrings, PairKeys, Contexts, Gather, Keys;
  }

  /** assertAssessmentDatasetIntegrity: the blocking reasons that stop an assessment which is not stale. */
  predicate Blocked(d: Dataset) {
    d.blocking * {OrphanBlocks, DuplicateBlocks, ConflictBlocks, DuplicateTraceBlocks, ConflictTraceBlocks} != {}
  }

  /** Why no decision comes out. */
  datatype Failure = NotJoined(join: JoinError) | NotAssessed(assess: AssessError)

  lemma ExplainedReasons(
      w: C.Wording, plan: Plan, phase: C.Phase, es: seq<Execution>, frozen: Option<C.Policy>, reasons: seq<Text>,
      policies: seq<C.Policy>, issued: int, d: C.Decision)
    requires Explained(w, plan, phase, es, frozen, reasons, policies, issued, d)
    ensures d.staleReasons == reasons
  {
  }

  /** Why raw traces and receipts yield no decision: the join refuses them, or the assessment of what was joined. */
  ghost function EndRefusal(
      n: Names, p: Protocol, traces: seq<Trace>, receipts: seq<Receipt>, w: C.Wording, plan: Plan, phase: C.Phase,
      frozen: Option<C.Policy>, windowDigest: Option<Text>, asOf: int, staleReasons: seq<Text>): Option<Failure>
  {
    match Join(n, p, traces, receipts)
    case Err(e) => Some(NotJoined(e))
    case Ok(d) =>
      match Refusal(w, plan, phase, d.executions, frozen, windowDigest, asOf, staleReasons, Blocked(d))
      case Some(e) => Some(NotAssessed(e))
      case None => None
  }

  /** From raw traces and receipts: a decision comes out unless something is refused, and the contract accepts it. */
  method JoinAndAssess(
      n: Names, p: Protocol, traces: seq<Trace>, receipts: seq<Receipt>, w: C.Wording, plan: Plan, phase: C.Phase,
      frozen: Option<C.Policy>, windowDigest: Option<Text>, asOf: int, staleReasons: seq<Text>, warnings: seq<Text>)
      returns (r: Result<C.Decision, Failure>)
    requires CollisionFree(n) && forall q :: q in receipts ==> Genuine(n, q)
    requires PlanOk(plan) && PolicyHashing(w) && |staleReasons| <= C.MAX_REASONS && |warnings| <= C.MAX_REASONS
    ensures r.Ok? <==> EndRefusal(n, p, traces, receipts, w, plan, phase, frozen, windowDigest, asOf, staleReasons).None?
    ensures r.Err? ==> EndRefusal(n, p, traces, receipts, w, plan, phase, frozen, windowDigest, asOf, staleReasons) == Some(r.error)
    ensures r.Ok? ==>
              && Join(n, p, traces, receipts).Ok? && C.DecisionOk(w, r.value)
              && Z.FitsEstimate(r.value, |plan.criticalSlices|, Join(n, p, traces, receipts).value.counts.caseReplicates) && Z.Shaped(Z.DecisionTree(r.value), 0)
  {
    hide CollisionFree, Genuine, Join, C.DecisionOk, PlanOk, PolicyHashing, Facts, Explained, Z.FitsEstimate, Z.Shaped, WithinBudget, DistinctIdentities, LogicalPairs, Refusal, Blocked;
    var joined := JoinAssessmentEvidence(n, p, traces, receipts);
    if joined.Err? { return Err(NotJoined(joined.error)); }
    JoinedFacts(n, p, traces, receipts);
    var d := joined.value;
    var decided, policies, issued := Assess(
      w, plan, phase, d.executions, frozen, windowDigest, asOf, staleReasons, Blocked(d), warnings);
    if decided.Err? { return Err(NotAssessed(decided.error)); }
    ExplainedReasons(w, plan, phase, d.executions, frozen, staleReasons, policies, issued, decided.value);
    Z.EstimateBounds(w, plan, phase, d.executions, frozen, policies, issued, decided.value);
    return Ok(decided.value);
  }

  /** Joined executions never repeat an identity: that refusal never ends an assessment of a joined dataset. */
  lemma JoinedNeverRepeats(n: Names, p: Protocol, traces: seq<Trace>, receipts: seq<Receipt>, w: C.Wording, plan: Plan, phase: C.Phase,
      frozen: Option<C.Policy>, windowDigest: Option<Text>, asOf: int, staleReasons: seq<Text>)
    requires CollisionFree(n) && forall q :: q in receipts ==> Genuine(n, q)
    ensures EndRefusal(n, p, traces, receipts, w, plan, phase, frozen, windowDigest, asOf, staleReasons) != Some(NotAssessed(DuplicateExecution))
  {
    hide CollisionFree, Genuine, Join, Facts, WithinBudget, DistinctIdentities, LogicalPairs, Blocked, Offered, Refuses, FrozenOk, ControlPolicy;
    if Join(n, p, traces, receipts).Ok? { JoinedFacts(n, p, traces, receipts); }
  }
}
