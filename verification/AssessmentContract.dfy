/** Assessment decisions and every rule the output contract checks them against. */
module AssessmentContract {
  import opened CodeUnits
  import opened Numbers
  import opened Wrappers
  import opened Sorting
  import opened Grouping
  import opened EvidenceModel

  // ----- policies

  datatype PolicyKind = ExpertOnly | FastOnly | Cascade
  datatype Operator = LessThan | AtMost | MoreThan | AtLeast
  datatype Predicate = Predicate(signal: Text, operator: Operator, threshold: Number, routeTo: Text)

  datatype PolicyBody = PolicyBody(
    kind: PolicyKind, primary: Text, expert: Text, predicates: seq<Predicate>, fallback: Option<Text>,
    protocolDigest: Text, issuedAt: int, expiresAt: int)

  datatype Policy = Policy(body: PolicyBody, digest: Text)

  /** assertPolicyBundleSemantics */
  predicate PolicySemantics(p: PolicyBody) {
    && p.expiresAt > p.issuedAt
    && (match p.kind
        case Cascade => |p.predicates| == 1 && p.fallback == Some(p.expert) && p.predicates[0].routeTo == p.expert
        case FastOnly => p.predicates == [] && p.fallback == None
        case ExpertOnly => p.predicates == [] && p.fallback == None && p.primary == p.expert)
  }

  /** Hashing of policy bodies, and the wording of reasons and gate ids, which only matters for sorting. */
  datatype Wording = Wording(policy: PolicyBody -> Text, reason: Shortfall -> Text, gate: GateId -> Text,
    failed: Text -> Text, pair: (Text, Text) -> Text)

  predicate PolicyOk(w: Wording, p: Policy) { PolicySemantics(p.body) && p.digest == w.policy(p.body) }

  // ----- the parts of a candidate assessment

  datatype EvidenceClass = Measured | Reported | Modeled | Unavailable

  function Rank(c: EvidenceClass): nat {
    match c case Measured => 0 case Reported => 1 case Modeled => 2 case Unavailable => 3
  }

  function Weaker(a: EvidenceClass, b: EvidenceClass): EvidenceClass { if Rank(b) > Rank(a) then b else a }

  function Weakest(cs: seq<EvidenceClass>): EvidenceClass {
    if cs == [] then Measured else Weaker(Weakest(cs[..|cs| - 1]), cs[|cs| - 1])
  }

  datatype Metric = Metric(value: Option<real>, evidence: EvidenceClass)

  predicate MetricOk(m: Metric) { m.value.None? <==> m.evidence.Unavailable? }

  datatype Metrics = Metrics(
    meanScore: Metric, failureRate: Metric, ttft: Metric, endToEnd: Metric, cost: Metric,
    evidenceCoverage: Metric, serviceCapacity: Metric)

  predicate Probability(m: Metric) { m.value.Some? ==> 0.0 <= m.value.value <= 1.0 }
  predicate NonNegative(m: Metric) { m.value.Some? ==> m.value.value >= 0.0 }

  predicate MetricsOk(m: Metrics) {
    && MetricOk(m.meanScore) && MetricOk(m.failureRate) && MetricOk(m.ttft) && MetricOk(m.endToEnd) && MetricOk(m.cost)
    && MetricOk(m.evidenceCoverage) && MetricOk(m.serviceCapacity)
    && Probability(m.meanScore) && Probability(m.failureRate) && Probability(m.evidenceCoverage)
    && NonNegative(m.ttft) && NonNegative(m.endToEnd) && NonNegative(m.cost) && NonNegative(m.serviceCapacity)
  }

  datatype GateId =
    | PairedQuality | MinimumMeanScore | MaximumFailureRate | MaximumTtft | MaximumEndToEnd | MaximumCost
    | MinimumCoverage | MinimumGroups | MinimumSliceGroups(slice: Text) | MinimumCapacity

  datatype Gate = Gate(id: Text, atLeast: bool, threshold: real, actual: Option<real>, evidence: EvidenceClass, passed: bool)

  predicate Holds(atLeast: bool, threshold: real, actual: Option<real>) {
    actual.Some? && if atLeast then actual.value >= threshold else actual.value <= threshold
  }

  predicate GateOk(g: Gate) {
    (g.actual.None? <==> g.evidence.Unavailable?) && g.passed == Holds(g.atLeast, g.threshold, g.actual)
  }

  datatype ReplayRow = ReplayRow(
    caseId: Text, replicateId: Text, groupId: Text, attempted: seq<Text>, selected: Text, success: bool, escalated: bool,
    score: Option<real>, scoreClass: EvidenceClass, weight: real, slices: seq<Text>,
    ttft: real, endToEnd: real, cost: Option<real>)

  const MAX_ATTEMPTS: nat := 8

  /** The row refinement: terminal profile, escalation, uniqueness, timing, and score provenance. */
  predicate RowOk(r: ReplayRow) {
    && 1 <= |r.attempted| <= MAX_ATTEMPTS && r.attempted[|r.attempted| - 1] == r.selected
    && (r.escalated <==> |r.attempted| > 1) && NoDuplicates(r.attempted)
    && NoDuplicates(r.slices) && |r.slices| <= MAX_SLICES && r.weight > 0.0
    && 0.0 <= r.ttft <= r.endToEnd && (r.cost.Some? ==> r.cost.value >= 0.0)
    && (!r.success ==> r.score == Some(0.0) || (r.score.None? && r.scoreClass.Unavailable?))
    && (!r.success && r.score == Some(0.0) ==> r.scoreClass.Modeled?)
    && (r.score.None? <==> r.scoreClass.Unavailable?)
  }

  datatype Inference = Inference(
    alpha: real, caseCount: int, replicateCount: int, groupCount: int, mass: real, estimate: real,
    lo: real, hi: real, iterations: int, seed: int, positive: bool)

  predicate InferenceOk(i: Inference) {
    && 0.0 < i.alpha < 1.0 && 1 <= i.groupCount <= i.caseCount <= i.replicateCount && i.mass > 0.0
    && i.lo <= i.hi && (i.positive <==> i.lo > 0.0) && 1 <= i.iterations <= 1_000_000 && 0 <= i.seed <= 0xffff_ffff
  }

  datatype Coverage = Coverage(
    caseCount: nat, replicateCount: nat, groupCount: nat, mass: real, sliceGroups: seq<(Text, nat)>,
    failureCount: nat, missingCount: nat, evidenceCoverage: real)

  const MAX_CRITICAL_SLICES: nat := 64

  predicate CoverageOk(c: Coverage) {
    && c.groupCount <= c.caseCount <= c.replicateCount && c.mass >= 0.0 && 0.0 <= c.evidenceCoverage <= 1.0
    && |c.sliceGroups| <= MAX_CRITICAL_SLICES
    && (forall i :: 0 <= i < |c.sliceGroups| ==> c.sliceGroups[i].1 <= c.groupCount)
    && (forall i, j :: 0 <= i < j < |c.sliceGroups| ==> c.sliceGroups[i].0 != c.sliceGroups[j].0)
  }

  datatype Status = Pass | Hold | Insufficient | Stale | Nominated | NoCandidate

  datatype Shortfall =
    | ProfileMissing | RouteSignalMissing | ExecutionAmbiguous | EvaluatorAbstained | EvidenceMissing | EvidenceInvalid
    | CapacityUnavailable | EvaluatorCoverage | CostUnavailable | IndependentGroups | SliceGroups(slice: Text)

  datatype Candidate = Candidate(
    policy: Policy, policyDigest: Text, status: Status, replay: seq<ReplayRow>, metrics: Metrics, gates: seq<Gate>,
    inference: Option<Inference>, coverage: Coverage, insufficiency: seq<Text>, rejection: seq<Text>)

  const MAX_GATES: nat := 128
  const MAX_REASONS: nat := 256

  function ScoreClassOf(r: ReplayRow): EvidenceClass { r.scoreClass }

  /** The mean score's provenance, derived from the rows. */
  function ExpectedScoreClass(rows: seq<ReplayRow>): EvidenceClass {
    if rows == [] || exists r :: r in rows && r.score.None? then Unavailable else Weakest(Map(ScoreClassOf, rows))
  }

  function FailedOf(w: Wording): Gate -> seq<Text> { (g: Gate) => if g.passed then [] else [w.failed(g.id)] }

  /** Insufficiency reasons and failed gates, sorted. */
  function ExpectedRejections(w: Wording, c: Candidate): seq<Text> {
    SortStrings(c.insufficiency + Gather(c.gates, FailedOf(w)))
  }

  predicate AllPass(gs: seq<Gate>) { forall i :: 0 <= i < |gs| ==> gs[i].passed }

  predicate AllUnavailable(m: Metrics) {
    && m.meanScore.evidence.Unavailable? && m.failureRate.evidence.Unavailable? && m.ttft.evidence.Unavailable?
    && m.endToEnd.evidence.Unavailable? && m.cost.evidence.Unavailable? && m.evidenceCoverage.evidence.Unavailable?
    && m.serviceCapacity.evidence.Unavailable?
  }

  /** Status against reasons, gates, inference, and the emptiness of a stale result. */
  predicate StatusOk(w: Wording, c: Candidate) {
    match c.status
    case Pass => c.insufficiency == [] && AllPass(c.gates) && c.inference.Some? && c.rejection == ExpectedRejections(w, c)
    case Hold => c.insufficiency == [] && !AllPass(c.gates) && c.inference.Some? && c.rejection == ExpectedRejections(w, c)
    case Insufficient => c.insufficiency != [] && c.inference.None? && c.rejection == ExpectedRejections(w, c)
    case Stale =>
      && c.replay == [] && c.gates == [] && c.inference.None? && c.insufficiency == [] && c.rejection != []
      && AllUnavailable(c.metrics)
    case _ => false
  }

  /** candidateAssessmentSchema with all its refinements. */
  predicate CandidateOk(w: Wording, c: Candidate) {
    && PolicyOk(w, c.policy) && c.policyDigest == c.policy.digest
    && (forall i :: 0 <= i < |c.replay| ==> RowOk(c.replay[i]))
    && MetricsOk(c.metrics)
    && (forall i :: 0 <= i < |c.gates| ==> GateOk(c.gates[i])) && |c.gates| <= MAX_GATES
    && (c.inference.Some? ==> InferenceOk(c.inference.value)) && CoverageOk(c.coverage)
    && |c.insufficiency| <= MAX_REASONS && |c.rejection| <= MAX_REASONS
    && c.metrics.meanScore.evidence == ExpectedScoreClass(c.replay)
    && (c.inference.Some? ==>
          var i := c.inference.value;
          && i.caseCount == c.coverage.caseCount && i.replicateCount == c.coverage.replicateCount
          && i.groupCount == c.coverage.groupCount && i.mass == c.coverage.mass)
    && (c.metrics.evidenceCoverage.value.Some? ==> c.metrics.evidenceCoverage.value.value == c.coverage.evidenceCoverage)
    && StatusOk(w, c)
  }

  // ----- decisions

  datatype Phase = Development | HoldoutPhase | Window
  datatype Estimator = Estimator(alpha: real, iterations: int, seed: int)

  datatype MetricName = MeanScore | FailureRate | Ttft | EndToEnd | Cost | EvidenceCoverage | ServiceCapacity

  datatype Decision = Decision(
    phase: Phase, status: Status, protocolDigest: Text, windowDigest: Option<Text>, estimator: Estimator,
    control: Candidate, candidates: seq<Candidate>, selected: Option<Policy>,
    staleReasons: seq<Text>, warnings: seq<Text>, unavailable: set<MetricName>)

  function MetricOf(m: Metrics, name: MetricName): Metric {
    match name
    case MeanScore => m.meanScore
    case FailureRate => m.failureRate
    case Ttft => m.ttft
    case EndToEnd => m.endToEnd
    case Cost => m.cost
    case EvidenceCoverage => m.evidenceCoverage
    case ServiceCapacity => m.serviceCapacity
  }

  const METRIC_NAMES: set<MetricName> := {MeanScore, FailureRate, Ttft, EndToEnd, Cost, EvidenceCoverage, ServiceCapacity}

  function UnavailableIn(c: Candidate): set<MetricName> {
    set name | name in METRIC_NAMES && MetricOf(c.metrics, name).evidence.Unavailable?
  }

  /** The metrics that some candidate lacks. */
  function UnavailableNames(cs: seq<Candidate>): set<MetricName> {
    if cs == [] then {} else UnavailableNames(cs[..|cs| - 1]) + UnavailableIn(cs[|cs| - 1])
  }

  predicate SameEstimator(e: Estimator, i: Inference) {
    e.alpha == i.alpha && e.iterations == i.iterations && e.seed == i.seed
  }

  predicate Bound(d: Decision, c: Candidate) {
    c.policy.body.protocolDigest == d.protocolDigest && (c.inference.Some? ==> SameEstimator(d.estimator, c.inference.value))
  }

  /** Unique policy digests in code-unit order. */
  predicate DigestOrdered(cs: seq<Candidate>) {
    forall i, j :: 0 <= i < j < |cs| ==> Before(cs[i].policyDigest, cs[j].policyDigest)
  }

  predicate DevelopmentOk(d: Decision) {
    && (d.status.Nominated? || d.status.NoCandidate? || d.status.Insufficient? || d.status.Stale?)
    && (d.status.Nominated? ==>
          d.selected.Some? && exists i :: 0 <= i < |d.candidates| && d.candidates[i].policyDigest == d.selected.value.digest
                                          && d.candidates[i].status.Pass?)
    && (!d.status.Nominated? ==> d.selected.None?)
    && (d.status.NoCandidate? ==>
          && (forall i :: 0 <= i < |d.candidates| ==> !d.candidates[i].status.Pass?)
          && exists i :: 0 <= i < |d.candidates| && d.candidates[i].status.Hold?)
    && (d.status.Insufficient? ==> forall i :: 0 <= i < |d.candidates| ==> d.candidates[i].status.Insufficient?)
  }

  predicate LaterPhaseOk(d: Decision) {
    && |d.candidates| == 1
    && (d.status.Pass? || d.status.Hold? || d.status.Insufficient? || d.status.Stale?)
    && d.selected.Some? && d.candidates[0].policyDigest == d.selected.value.digest && d.candidates[0].status == d.status
  }

  predicate StaleOk(d: Decision) {
    if d.status.Stale? then
      && d.staleReasons != [] && d.control.status.Stale? && d.control.rejection == d.staleReasons
      && forall i :: 0 <= i < |d.candidates| ==> d.candidates[i].status.Stale? && d.candidates[i].rejection == d.staleReasons
    else
      d.staleReasons == [] && !d.control.status.Stale? && forall i :: 0 <= i < |d.candidates| ==> !d.candidates[i].status.Stale?
  }

  const MAX_CANDIDATES: nat := 10_000

  /** The decision schema and assertDecisionSemantics. */
  predicate DecisionOk(w: Wording, d: Decision) {
    && CandidateOk(w, d.control) && (forall i :: 0 <= i < |d.candidates| ==> CandidateOk(w, d.candidates[i]))
    && 1 <= |d.candidates| <= MAX_CANDIDATES
    && 0.0 < d.estimator.alpha < 1.0 && 1 <= d.estimator.iterations <= 1_000_000 && 0 <= d.estimator.seed <= 0xffff_ffff
    && Bound(d, d.control) && (forall i :: 0 <= i < |d.candidates| ==> Bound(d, d.candidates[i]))
    && d.control.policy.body.kind.ExpertOnly?
    && DigestOrdered(d.candidates) && d.unavailable == UnavailableNames(d.candidates)
    && (d.selected.Some? ==> PolicyOk(w, d.selected.value) && d.selected.value.body.protocolDigest == d.protocolDigest)
    && (d.phase.Window? <==> d.windowDigest.Some?)
    && (if d.phase.Development? then DevelopmentOk(d) else LaterPhaseOk(d))
    && StaleOk(d)
    && |d.staleReasons| <= MAX_REASONS && |d.warnings| <= MAX_REASONS
  }
}
