/** The assessment engine: policy replay, metrics, gates, candidate results and the decision. */
module AssessmentEngine {
  import opened CodeUnits
  import opened Wrappers
  import opened Sorting
  import opened Grouping
  import opened EvidenceModel
  import opened AssessmentContract

  // ----- protocol

  datatype Gates = Gates(
    minimumMeanScore: real, nonInferiorityMargin: real, maximumFailureRate: real, maximumTtft: real,
    maximumEndToEnd: real, maximumCost: real, minimumCoverage: real, minimumGroups: nat, minimumSliceGroups: nat,
    capacity: Option<real>)

  datatype Plan = Plan(
    protocolDigest: Text, champion: Text, candidates: seq<Text>, predicates: seq<Predicate>, criticalSlices: seq<Text>,
    gates: Gates, alpha: real, iterations: int, seed: int, createdAt: int, expiresAt: int)

  /** What protocol normalization guarantees. */
  predicate PlanOk(p: Plan) {
    && NoDuplicates(p.candidates) && p.candidates != [] && p.champion !in p.candidates && NoDuplicates(p.predicates)
    && (forall i :: 0 <= i < |p.predicates| ==> p.predicates[i].routeTo == p.champion)
    && NoDuplicates(p.criticalSlices) && |p.criticalSlices| <= MAX_CRITICAL_SLICES
    && p.gates.minimumGroups >= 1 && 0.0 < p.alpha < 1.0 && 1 <= p.iterations <= 1_000_000
    && 0 <= p.seed <= 0xffff_ffff && p.createdAt < p.expiresAt
  }

  // ----- what one execution contributes

  function CostClass(c: AttemptCost): EvidenceClass {
    match c case MeasuredCost(_) => Measured case ModeledCost(_) => Modeled case ReportedCost(_) => Reported case NoCost => Unavailable
  }

  /** The summed attempt costs with their weakest class, unless one is unavailable. */
  function TotalCost(costs: seq<AttemptCost>): Metric {
    if costs == [] then Metric(Some(0.0), Measured)
    else
      var front, last := TotalCost(costs[..|costs| - 1]), costs[|costs| - 1];
      if front.value.None? || last.NoCost? then Metric(None, Unavailable)
      else Metric(Some(front.value.value + last.amount), Weaker(front.evidence, CostClass(last)))
  }

  /** The attempt loop: it stops at the first unavailable cost. */
  method SumCosts(costs: seq<AttemptCost>) returns (m: Metric)
    ensures m == TotalCost(costs)
  {
    var cost, class_ := 0.0, Measured;
    for i := 0 to |costs|
      invariant TotalCost(costs[..i]) == Metric(Some(cost), class_)
    {
      assert costs[..i + 1][..i] == costs[..i];
      if costs[i].NoCost? {
        NoCostStays(costs, i + 1);
        return Metric(None, Unavailable);
      }
      cost, class_ := cost + costs[i].amount, Weaker(class_, CostClass(costs[i]));
    }
    assert costs[..|costs|] == costs;
    return Metric(Some(cost), class_);
  }

  lemma {:induction false} NoCostStays(costs: seq<AttemptCost>, i: nat)
    requires i <= |costs| && TotalCost(costs[..i]) == Metric(None, Unavailable)
    ensures TotalCost(costs) == Metric(None, Unavailable)
    decreases |costs| - i
  {
    if i == |costs| {
      assert costs[..i] == costs;
    } else {
      assert costs[..i + 1][..i] == costs[..i];
      NoCostStays(costs, i + 1);
    }
  }

  predicate Succeeded(e: Execution) { e.trace.status.Success? }

  function Latency(e: Execution): real { (e.trace.completedAt - e.trace.startedAt) as real }
  predicate TtftMeasured(e: Execution) { Succeeded(e) && e.trace.firstToken.Some? }
  function TimeToToken(e: Execution): real {
    if TtftMeasured(e) then (e.trace.firstToken.value - e.trace.startedAt) as real else Latency(e)
  }

  /** Score, provenance and the reason a score is missing. */
  function ScoreOf(e: Execution): (Option<real>, EvidenceClass, Option<Shortfall>) {
    match e.outcome
    case ScoredOutcome(x) =>
      (if x.row.evidence.outcome.Scored? then (Some(x.row.evidence.outcome.score as real), Reported, None)
       else (None, Unavailable, Some(EvidenceInvalid)))
    case FailureZero => (Some(0.0), Modeled, None)
    case AmbiguousExecution => (None, Unavailable, Some(ExecutionAmbiguous))
    case DeclaredOutcome(x) =>
      var o := x.row.evidence.outcome;
      (None, Unavailable, Some(if o.NotScored? && o.kind.DeclaredAbstained? then EvaluatorAbstained
                               else if o.NotScored? && o.kind.DeclaredMissing? then EvidenceMissing else EvidenceInvalid))
    case NoEvidence => (None, Unavailable, Some(EvidenceMissing))
    case _ => (None, Unavailable, Some(EvidenceInvalid))
  }

  /** What the join guarantees of an execution. */
  predicate ExecutionOk(e: Execution) {
    && WellFormedTrace(e.trace)
    && (!Succeeded(e) ==> e.outcome.FailureZero? || e.outcome.AmbiguousExecution?)
    && (e.outcome.FailureZero? ==> !Succeeded(e))
    && (e.outcome.ScoredOutcome? ==>
          e.outcome.record.row.evidence.outcome.Scored? && 0.0 <= e.outcome.record.row.evidence.outcome.score <= 1.0)
  }

  // ----- replay

  /** A replay row with what the contract does not carry. */
  datatype Replayed = Replayed(row: ReplayRow, reason: Option<Shortfall>, ttftClass: EvidenceClass, endClass: EvidenceClass, costClass: EvidenceClass)

  predicate Available(r: Replayed) { r.row.score.Some? }

  function Modeling(cascade: bool, c: EvidenceClass): EvidenceClass { if cascade && !c.Unavailable? then Modeled else c }

  function Direct(e: Execution, cascade: bool): Replayed {
    var t, s, cost := e.trace, ScoreOf(e), TotalCost(e.trace.costs);
    Replayed(
      ReplayRow(
        t.caseId, t.replicateId, t.groupId, [t.profileId], t.profileId, Succeeded(e), false, s.0, Modeling(cascade, s.1),
        t.weight, SortStrings(t.slices), TimeToToken(e), Latency(e), cost.value),
      s.2, if cascade then Modeled else if TtftMeasured(e) then Measured else Modeled,
      if cascade then Modeled else Measured, Modeling(cascade, cost.evidence))
  }

  /** The primary failed: the expert's outcome after the primary's whole latency, at both costs. */
  function Fallback(primary: Execution, expert: Execution): Replayed {
    var t, s := primary.trace, ScoreOf(expert);
    var a, b := TotalCost(primary.trace.costs), TotalCost(expert.trace.costs);
    var cost := if a.value.None? || b.value.None? then None else Some(a.value.value + b.value.value);
    Replayed(
      ReplayRow(
        t.caseId, t.replicateId, t.groupId, [t.profileId, expert.trace.profileId], expert.trace.profileId, Succeeded(expert), true,
        s.0, if s.0.Some? then Modeled else Unavailable, t.weight, SortStrings(t.slices),
        Latency(primary) + TimeToToken(expert), Latency(primary) + Latency(expert), cost),
      s.2, Modeled, Modeled, if cost.None? then Unavailable else Modeled)
  }

  predicate PredicateMatches(p: Predicate, v: real) {
    match p.operator
    case LessThan => v < p.threshold
    case AtMost => v <= p.threshold
    case MoreThan => v > p.threshold
    case AtLeast => v >= p.threshold
  }

  datatype PairId = PairId(caseId: Text, replicateId: Text)
  datatype Identity3 = Identity3(caseId: Text, replicateId: Text, profileId: Text)

  function PairOfExecution(e: Execution): PairId { PairId(e.trace.caseId, e.trace.replicateId) }
  function IdentityOf(e: Execution): Identity3 { Identity3(e.trace.caseId, e.trace.replicateId, e.trace.profileId) }

  function PairOrder(): (PairId, PairId) -> bool {
    (a: PairId, b: PairId) =>
      (if Compare(a.caseId, b.caseId) != 0 then Compare(a.caseId, b.caseId) else Compare(a.replicateId, b.replicateId)) <= 0
  }

  function LogicalPairs(es: seq<Execution>): seq<PairId> { Sort(Keys(es, PairOfExecution), PairOrder()) }

  type Index = map<Identity3, Execution>

  /** One pair under one policy: the row it replays to, or why it cannot be replayed. */
  function ReplayPair(policy: PolicyBody, index: Index, pair: PairId): Result<Replayed, Shortfall> {
    var a, b := Identity3(pair.caseId, pair.replicateId, policy.primary), Identity3(pair.caseId, pair.replicateId, policy.expert);
    if a !in index || b !in index then Err(ProfileMissing)
    else
      var primary, expert := index[a], index[b];
      match policy.kind
      case ExpertOnly => Ok(Direct(expert, false))
      case FastOnly => Ok(Direct(primary, false))
      case Cascade =>
        if primary.trace.routeValue.None? then Err(RouteSignalMissing)
        else if policy.predicates == [] then Err(RouteSignalMissing)
        else if PredicateMatches(policy.predicates[0], primary.trace.routeValue.value) then Ok(Direct(expert, true))
        else if Succeeded(primary) then Ok(Direct(primary, true))
        else Ok(Fallback(primary, expert))
  }

  function RowsBy(policy: PolicyBody, index: Index): PairId -> seq<Replayed> {
    pair => var r := ReplayPair(policy, index, pair); if r.Ok? then [r.value] else []
  }

  function ReasonsBy(policy: PolicyBody, index: Index): PairId -> seq<Shortfall> {
    pair => var r := ReplayPair(policy, index, pair); if r.Err? then [r.error] else []
  }

  /** A replayed policy: its rows in pair order, and the reasons some pairs are missing. */
  datatype Replay = Replay(rows: seq<Replayed>, reasons: seq<Shortfall>)

  function ReplayOf(policy: PolicyBody, index: Index, pairs: seq<PairId>): Replay {
    Replay(Gather(pairs, RowsBy(policy, index)), Gather(pairs, ReasonsBy(policy, index)))
  }

  /** replayPolicy */
  method ReplayPolicy(policy: PolicyBody, index: Index, pairs: seq<PairId>) returns (r: Replay)
    requires PolicySemantics(policy)
    ensures r == ReplayOf(policy, index, pairs)
  {
    var rows: seq<Replayed>, reasons: seq<Shortfall> := [], [];
    for i := 0 to |pairs|
      invariant rows == Gather(pairs[..i], RowsBy(policy, index)) && reasons == Gather(pairs[..i], ReasonsBy(policy, index))
    {
      var pair := pairs[i];
      assert pairs[..i + 1][..i] == pairs[..i];
      var a := Identity3(pair.caseId, pair.replicateId, policy.primary);
      var b := Identity3(pair.caseId, pair.replicateId, policy.expert);
      if a !in index || b !in index {
        reasons := reasons + [ProfileMissing];
        continue;
      }
      var primary, expert := index[a], index[b];
      if !policy.kind.Cascade? {
        rows := rows + [Direct(if policy.kind.ExpertOnly? then expert else primary, false)];
        continue;
      }
      if primary.trace.routeValue.None? {
        reasons := reasons + [RouteSignalMissing];
        continue;
      }
      if PredicateMatches(policy.predicates[0], primary.trace.routeValue.value) {
        rows := rows + [Direct(expert, true)];
      } else if Succeeded(primary) {
        rows := rows + [Direct(primary, true)];
      } else {
        rows := rows + [Fallback(primary, expert)];
      }
    }
    assert pairs[..|pairs|] == pairs;
    return Replay(rows, reasons);
  }

  predicate DistinctIdentities(es: seq<Execution>) { NoDuplicates(Map(IdentityOf, es)) }

  /** The index holds exactly the executions, each at its identity. */
  ghost predicate Indexes(index: Index, es: seq<Execution>) {
    && (forall e :: e in es ==> IdentityOf(e) in index && index[IdentityOf(e)] == e)
    && forall k :: k in index ==> index[k] in es && IdentityOf(index[k]) == k
  }

  /** indexExecutions: fails on a repeated identity. */
  method IndexExecutions(es: seq<Execution>) returns (r: Option<Index>)
    ensures r.Some? <==> DistinctIdentities(es)
    ensures r.Some? ==> Indexes(r.value, es)
  {
    var index: Index := map[];
    for i := 0 to |es|
      invariant DistinctIdentities(es[..i]) && Indexes(index, es[..i])
    {
      var row := es[i];
      assert es[..i + 1] == es[..i] + [row];
      if IdentityOf(row) in index {
        RepeatedIdentity(es, i, index[IdentityOf(row)]);
        return None;
      }
      NewIdentity(es[..i], row, index);
      index := index[IdentityOf(row) := row];
    }
    assert es[..|es|] == es;
    return Some(index);
  }

  lemma RepeatedIdentity(es: seq<Execution>, i: nat, e: Execution)
    requires i < |es| && e in es[..i] && IdentityOf(e) == IdentityOf(es[i])
    ensures !DistinctIdentities(es)
  {
    var j :| 0 <= j < i && es[j] == e;
    assert Map(IdentityOf, es)[j] == IdentityOf(es[j]) && Map(IdentityOf, es)[i] == IdentityOf(es[i]);
  }

  lemma NewIdentity(front: seq<Execution>, e: Execution, index: Index)
    requires DistinctIdentities(front) && Indexes(index, front) && IdentityOf(e) !in index
    ensures DistinctIdentities(front + [e])
  {
    var ids, all := Map(IdentityOf, front), Map(IdentityOf, front + [e]);
    forall k | 0 <= k < |ids| ensures all[k] == ids[k] && ids[k] != IdentityOf(e) {
      assert all[k] == IdentityOf((front + [e])[k]) && ids[k] == IdentityOf(front[k]) && front[k] in front;
    }
    assert all[|front|] == IdentityOf((front + [e])[|front|]);
    assert all == ids + [IdentityOf(e)];
  }
}
