/** assess: the decision of one phase, and that the output contract never rejects it. */
module AssessmentDecision {
  import opened CodeUnits
  import opened Wrappers
  import opened Sorting
  import opened Grouping
  import opened EvidenceModel
  import opened AssessmentContract
  import opened AssessmentEngine
  import opened AssessmentRows
  import opened AssessmentCandidate
  import opened AssessmentPolicies
  import B = Bootstrap

  // ----- one candidate

  lemma ReplayReasons(policy: PolicyBody, index: Index, pairs: seq<PairId>)
    ensures NoSliceReasons(ReplayOf(policy, index, pairs))
  {
    var r := ReplayOf(policy, index, pairs);
    GatherMembers(pairs, RowsBy(policy, index));
    GatherMembers(pairs, ReasonsBy(policy, index));
    hide Direct, Fallback, PredicateMatches;
    forall i | 0 <= i < |r.reasons| ensures !r.reasons[i].SliceGroups? { assert r.reasons[i] in r.reasons; }
    forall i | 0 <= i < |r.rows| ensures r.rows[i].reason.Some? ==> !r.rows[i].reason.value.SliceGroups? {
      assert r.rows[i] in r.rows;
      var pair :| pair in pairs && r.rows[i] in RowsBy(policy, index)(pair);
      RowReason(policy, index, pair);
    }
  }

  lemma RowReason(policy: PolicyBody, index: Index, pair: PairId)
    ensures var r := ReplayPair(policy, index, pair);
            r.Ok? && r.value.reason.Some? ==> !r.value.reason.value.SliceGroups?
  {
    hide SortStrings, TotalCost;
  }

  /** A control compared with itself is counted once. */
  function EvidenceRows(candidate: Replay, control: Replay, same: bool): seq<Replayed> {
    if same then candidate.rows else candidate.rows + control.rows
  }

  function CoverageMetric(evidence: seq<Replayed>): Metric {
    if |evidence| == 0 then NoMetric() else Metric(Some(CoverageValue(evidence)), Measured)
  }

  lemma CoverageMetricOk(evidence: seq<Replayed>)
    ensures MetricOk(CoverageMetric(evidence)) && Probability(CoverageMetric(evidence))
    ensures CoverageMetric(evidence).value.Some? ==> CoverageMetric(evidence).value.value == CoverageValue(evidence)
  {
    CoverageWithin(evidence);
    hide CoverageValue;
  }

  lemma CoverageOfMetric(evidence: seq<Replayed>)
    ensures CoverageMetric(evidence).value == if evidence == [] then None else Some(CoverageValue(evidence))
  {
    hide CoverageValue;
  }

  lemma RowsReplayed(rows: seq<Replayed>, es: seq<Execution>)
    requires RowsOk(rows, es)
    ensures AllReplayed(rows)
  {
    hide ReplayedOk;
    forall i | 0 <= i < |rows| ensures ReplayedOk(rows[i]) { assert rows[i] in rows; }
  }

  /** The inference, when nothing is missing. */
  method InferUnlessShort(plan: Plan, paired: seq<Replayed>, candidate: Replay, control: Replay, short: seq<Shortfall>, ghost es: seq<Execution>)
      returns (r: Result<Option<Inference>, B.BootstrapError>)
    requires PlanOk(plan) && RowsOk(candidate.rows, es) && Facts(es) && paired == Paired(candidate.rows, control.rows)
    ensures r.Ok? ==> (r.value.Some? <==> short == []) && (r.value.Some? ==> InferenceIs(plan, paired, control.rows, r.value.value))
    ensures r.Ok? <==> short != [] || InferenceRefusal(plan, paired).None?
    ensures r.Err? ==> InferenceRefusal(plan, paired) == Some(r.error)
  {
    if |short| > 0 { return Ok(None); }
    hide RowsOk, Facts, PlanOk, InferenceIs, Paired, InferenceRefusal;
    PairedOk(candidate.rows, control.rows, es);
    var i := Infer(plan, paired, control.rows, es);
    if i.Err? { return Err(i.error); }
    return Ok(Some(i.value));
  }

  /** The result from its computed parts. */
  function Assemble(w: Wording, plan: Plan, phase: Phase, policy: Policy, candidate: Replay, control: Replay, evidence: seq<Replayed>, m: Metrics, i: Option<Inference>): Candidate {
    var paired := Paired(candidate.rows, control.rows);
    var short, gates := Shortfalls(plan, phase, candidate, control, m, paired), GatesFor(w, plan, phase, m, i, paired);
    Candidate(
      policy, policy.digest, if |short| > 0 then Insufficient else if AllPass(gates) then Pass else Hold, Map(RowOf, candidate.rows),
      m, gates, i, CoverageFor(plan, evidence, candidate.rows, paired, i), Texts(w, short),
      SortStrings(Texts(w, short) + Gather(gates, FailedOf(w))))
  }

  lemma AssembledIs(w: Wording, plan: Plan, phase: Phase, policy: Policy, candidate: Replay, control: Replay, evidence: seq<Replayed>, m: Metrics, i: Option<Inference>)
    requires MetricsMean(w, candidate.rows, m)
    requires var paired := Paired(candidate.rows, control.rows);
             var short := Shortfalls(plan, phase, candidate, control, m, paired);
             (i.Some? <==> short == []) && (i.Some? ==> InferenceIs(plan, paired, control.rows, i.value))
    ensures var c := Assemble(w, plan, phase, policy, candidate, control, evidence, m, i);
            && Assessed(w, plan, phase, policy, candidate, control, evidence, c)
            && c.policyDigest == policy.digest && c.rejection == ExpectedRejections(w, c)
            && c.metrics == m && c.replay == Map(RowOf, candidate.rows)
  {
    hide MetricsMean, Shortfalls, InferenceIs, GatesFor, CoverageFor, Texts, Paired, SortStrings, AllPass, Gather;
  }

  /** Why no result comes out: sufficient evidence, of a size the bootstrap refuses. */
  function CandidateRefusal(plan: Plan, phase: Phase, candidate: Replay, control: Replay, evidence: seq<Replayed>): Option<B.BootstrapError> {
    if Sufficient(plan, phase, candidate, control, evidence) then InferenceRefusal(plan, Paired(candidate.rows, control.rows)) else None
  }

  /** candidateAssessment: it fails exactly when the evidence is sufficient and the bootstrap refuses its size. */
  method AssessCandidate(w: Wording, plan: Plan, phase: Phase, policy: Policy, candidate: Replay, control: Replay, same: bool, ghost es: seq<Execution>)
      returns (r: Result<Candidate, B.BootstrapError>)
    requires PlanOk(plan) && PolicyOk(w, policy) && Facts(es) && RowsOk(candidate.rows, es) && RowsOk(control.rows, es)
    requires NoSliceReasons(candidate) && NoSliceReasons(control)
    ensures r.Ok? ==> CandidateOk(w, r.value) && Assessed(w, plan, phase, policy, candidate, control, EvidenceRows(candidate, control, same), r.value)
    ensures r.Ok? <==> CandidateRefusal(plan, phase, candidate, control, EvidenceRows(candidate, control, same)).None?
    ensures r.Err? ==> CandidateRefusal(plan, phase, candidate, control, EvidenceRows(candidate, control, same)) == Some(r.error)
  {
    hide PlanOk, PolicyOk, Facts, RowsOk, NoSliceReasons, ExpectedScoreClass, MetricsMean, CoverageValue, AllReplayed, MetricsOk, ExpectedRejections;
    hide Paired, Shortfalls, InferenceIs, CoverageMetric, Assessed, CandidateOk, Assemble, Sufficient, InferenceRefusal, EvidenceRows;
    var evidence := EvidenceRows(candidate, control, same);
    CoverageMetricOk(evidence);
    RowsReplayed(candidate.rows, es);
    var metrics := OperationalMetrics(w, candidate.rows, NoMetric(), CoverageMetric(evidence));
    var paired := Paired(candidate.rows, control.rows);
    var short := Shortfalls(plan, phase, candidate, control, metrics, paired);
    CoverageOfMetric(evidence);
    SufficientIff(w, plan, phase, candidate, control, evidence, metrics);
    var inference := InferUnlessShort(plan, paired, candidate, control, short, es);
    if inference.Err? { return Err(inference.error); }
    AssembledIs(w, plan, phase, policy, candidate, control, evidence, metrics, inference.value);
    var c := Assemble(w, plan, phase, policy, candidate, control, evidence, metrics, inference.value);
    CandidateIsOk(w, plan, phase, policy, candidate, control, evidence, c, es);
    return Ok(c);
  }

  // ----- stale results

  function StaleCandidate(policy: Policy, reasons: seq<Text>): Candidate {
    var m := NoMetric();
    Candidate(policy, policy.digest, Stale, [], Metrics(m, m, m, m, m, m, m), [], None, Coverage(0, 0, 0, 0.0, [], 0, 0, 0.0), [], reasons)
  }

  lemma StaleIsOk(w: Wording, policy: Policy, reasons: seq<Text>)
    requires PolicyOk(w, policy) && reasons != [] && |reasons| <= MAX_REASONS
    ensures CandidateOk(w, StaleCandidate(policy, reasons))
  {
  }

  // ----- selection

  predicate AtMostOption(a: Option<real>, b: Option<real>) { b.None? || (a.Some? && a.value <= b.value) }

  /** Cost, end-to-end latency, digest; a missing value counts as infinite. */
  function SelectionOrder(): (Candidate, Candidate) -> bool {
    (a: Candidate, b: Candidate) =>
      var ac, bc, al, bl := a.metrics.cost.value, b.metrics.cost.value, a.metrics.endToEnd.value, b.metrics.endToEnd.value;
      if ac != bc then AtMostOption(ac, bc) else if al != bl then AtMostOption(al, bl) else Compare(a.policyDigest, b.policyDigest) <= 0
  }

  lemma SelectionPreorder()
    ensures Preorder(SelectionOrder())
  {
    var le := SelectionOrder();
    forall a, b ensures le(a, b) || le(b, a) { CompareAntisymmetric(a.policyDigest, b.policyDigest); }
    forall a, b, c | le(a, b) && le(b, c) ensures le(a, c) {
      if Compare(a.policyDigest, b.policyDigest) <= 0 && Compare(b.policyDigest, c.policyDigest) <= 0 {
        LeTransitive(a.policyDigest, b.policyDigest, c.policyDigest);
      }
    }
  }

  function PassingOne(c: Candidate): seq<Candidate> { if c.status.Pass? then [c] else [] }

  lemma PassingMembers(cs: seq<Candidate>)
    ensures forall c :: c in Gather(cs, PassingOne) <==> c in cs && c.status.Pass?
  {
    GatherMembers(cs, PassingOne);
    forall c ensures c in Gather(cs, PassingOne) <==> c in cs && c.status.Pass? {
      if c in cs && c.status.Pass? { assert c in PassingOne(c); }
    }
  }

  lemma LeastFirst(sorted: seq<Candidate>, c: Candidate)
    requires Sorted(sorted, SelectionOrder()) && c in sorted
    ensures SelectionOrder()(sorted[0], c)
  {
    var i :| 0 <= i < |sorted| && sorted[i] == c;
    CompareZero(c.policyDigest, c.policyDigest);
    if i > 0 { assert SelectionOrder()(sorted[0], sorted[i]); }
  }

  /** selectDevelopmentCandidate: a least passing candidate, if any passes. */
  method SelectCandidate(cs: seq<Candidate>) returns (selected: Option<Candidate>)
    ensures selected.None? <==> forall c :: c in cs ==> !c.status.Pass?
    ensures selected.Some? ==>
              && selected.value in cs && selected.value.status.Pass?
              && forall c :: c in cs && c.status.Pass? ==> SelectionOrder()(selected.value, c)
  {
    var passing := Gather(cs, PassingOne);
    PassingMembers(cs);
    var sorted := Sort(passing, SelectionOrder());
    SortPermutes(passing, SelectionOrder());
    SelectionPreorder();
    SortSorts(passing, SelectionOrder());
    hide Sort, Gather, Sorted, SelectionOrder;
    SameMembers(sorted, passing);
    if |sorted| == 0 {
      assert forall c :: c !in passing;
      return None;
    }
    assert sorted[0] in sorted;
    forall c | c in cs && c.status.Pass? ensures SelectionOrder()(sorted[0], c) { LeastFirst(sorted, c); }
    return Some(sorted[0]);
  }

  /** unavailableMetricNames */
  method UnavailableMetrics(cs: seq<Candidate>) returns (names: set<MetricName>)
    ensures names == UnavailableNames(cs)
  {
    names := {};
    for i := 0 to |cs|
      invariant names == UnavailableNames(cs[..i])
    {
      assert cs[..i + 1][..i] == cs[..i];
      names := names + UnavailableIn(cs[i]);
    }
    assert cs[..|cs|] == cs;
  }

  // ----- the decision

  datatype AssessError = WorkExceeded | WrongSplit | NoPolicy | PolicyMismatch | Integrity | DuplicateExecution | Bootstrap(error: B.BootstrapError)

  const MAX_REPLAY_ROWS: nat := 10_000
  const MAX_NODES: nat := 2_000_000

  /** The pre-run bound on the nodes of the decision. */
  function EstimatedNodes(assessments: nat, slices: nat, rows: nat): nat { 1_024 + assessments * (512 + slices * 16) + rows * 128 }

  predicate WithinBudget(plan: Plan, candidates: nat, pairs: nat) {
    && (candidates + 1) * pairs <= MAX_REPLAY_ROWS
    && EstimatedNodes(candidates + 1, |plan.criticalSlices|, (candidates + 1) * pairs) <= MAX_NODES
  }

  lemma FewCandidates(plan: Plan, candidates: nat, pairs: nat)
    requires WithinBudget(plan, candidates, pairs)
    ensures candidates <= MAX_CANDIDATES
  {
    assert (candidates + 1) * (512 + |plan.criticalSlices| * 16) >= (candidates + 1) * 512 by {
      Grow(candidates + 1, |plan.criticalSlices| * 16);
    }
  }

  lemma Grow(a: nat, x: nat)
    ensures a * (512 + x) >= a * 512
  {
  }

  function SplitOf(phase: Phase): Split {
    match phase case Development => Dev case HoldoutPhase => Holdout case Window => Online
  }

  function CandidateCount(plan: Plan, phase: Phase): nat {
    if phase.Development? then |plan.candidates| * (|plan.predicates| + 1) else 1
  }

  /** One policy's result: acceptable to the contract, and what its replay against the control says. */
  ghost predicate ResultOf(
      w: Wording, plan: Plan, phase: Phase, index: Index, pairs: seq<PairId>, control: Policy, policy: Policy, c: Candidate)
  {
    var replay, base := ReplayOf(policy.body, index, pairs), ReplayOf(control.body, index, pairs);
    CandidateOk(w, c) && Assessed(w, plan, phase, policy, replay, base, EvidenceRows(replay, base, policy.digest == control.digest), c)
  }

  /** Why a policy gets no result. */
  ghost function PolicyRefusal(plan: Plan, phase: Phase, index: Index, pairs: seq<PairId>, control: Policy, policy: Policy): Option<B.BootstrapError> {
    var replay, base := ReplayOf(policy.body, index, pairs), ReplayOf(control.body, index, pairs);
    CandidateRefusal(plan, phase, replay, base, EvidenceRows(replay, base, policy.digest == control.digest))
  }

  lemma {:induction false} PairedFew(rows: seq<Replayed>, control: seq<Replayed>)
    ensures |Paired(rows, control)| <= |rows|
  {
    AtMostOne(rows, PairedBy(control));
  }

  /** Within the budget of replay rows only the work of the bootstrap can be refused. */
  lemma OnlyWork(plan: Plan, phase: Phase, index: Index, pairs: seq<PairId>, control: Policy, policy: Policy)
    requires PlanOk(plan) && |pairs| <= MAX_REPLAY_ROWS
    ensures var r := PolicyRefusal(plan, phase, index, pairs, control, policy); r.Some? ==> r == Some(B.WorkExceeded)
  {
    var replay, base := ReplayOf(policy.body, index, pairs), ReplayOf(control.body, index, pairs);
    var paired := Paired(replay.rows, base.rows);
    AtMostOne(pairs, RowsBy(policy.body, index));
    PairedFew(replay.rows, base.rows);
    KeysAtMost(paired, CaseOf);
    NoKeys(paired, GroupOf);
    hide Paired, Keys, Gather, ReplayPair, EvidenceRows, CoverageValue, SliceGroupCount, AllCosted, CapacityRequired;
  }

  /** The replay of one policy; the control's is shared. */
  method ReplayShared(w: Wording, policy: Policy, controlPolicy: Policy, control: Replay, index: Index, pairs: seq<PairId>) returns (replay: Replay)
    requires PolicyHashing(w) && PolicyOk(w, policy) && PolicyOk(w, controlPolicy)
    requires control == ReplayOf(controlPolicy.body, index, pairs)
    ensures replay == ReplayOf(policy.body, index, pairs)
  {
    hide ReplayOf;
    if policy.digest == controlPolicy.digest {
      replay := control;
    } else {
      replay := ReplayPolicy(policy.body, index, pairs);
    }
  }

  method AssessPolicy(
      w: Wording, plan: Plan, phase: Phase, index: Index, pairs: seq<PairId>, control: Replay, controlPolicy: Policy,
      policy: Policy, ghost es: seq<Execution>) returns (r: Result<Candidate, AssessError>)
    requires PlanOk(plan) && Facts(es) && Indexes(index, es) && PolicyHashing(w)
    requires PolicyOk(w, controlPolicy) && Replayable(controlPolicy.body) && control == ReplayOf(controlPolicy.body, index, pairs)
    requires PolicyOk(w, policy) && Replayable(policy.body)
    ensures r.Ok? ==> ResultOf(w, plan, phase, index, pairs, controlPolicy, policy, r.value)
    ensures var refusal := PolicyRefusal(plan, phase, index, pairs, controlPolicy, policy);
            (r.Ok? <==> refusal.None?) && (r.Err? ==> refusal.Some? && r.error == Bootstrap(refusal.value))
  {
    hide CandidateOk, Assessed, Facts, RowsOk, NoSliceReasons, Indexes, PlanOk, ReplayOf, PolicyOk, PolicyHashing, Replayable, CandidateRefusal;
    var replay := ReplayShared(w, policy, controlPolicy, control, index, pairs);
    ReplayOk(policy.body, index, es, pairs);
    ReplayOk(controlPolicy.body, index, es, pairs);
    ReplayReasons(policy.body, index, pairs);
    ReplayReasons(controlPolicy.body, index, pairs);
    var c := AssessCandidate(w, plan, phase, policy, replay, control, policy.digest == controlPolicy.digest, es);
    if c.Err? { return Err(Bootstrap(c.error)); }
    return Ok(c.value);
  }

  /** Every policy against one shared control replay, in policy order. */
  method AssessAll(
      w: Wording, plan: Plan, phase: Phase, index: Index, pairs: seq<PairId>, control: Replay, controlPolicy: Policy,
      policies: seq<Policy>, ghost es: seq<Execution>) returns (r: Result<seq<Candidate>, AssessError>)
    requires PlanOk(plan) && Facts(es) && Indexes(index, es) && PolicyHashing(w)
    requires PolicyOk(w, controlPolicy) && Replayable(controlPolicy.body) && control == ReplayOf(controlPolicy.body, index, pairs)
    requires forall i :: 0 <= i < |policies| ==> PolicyOk(w, policies[i]) && Replayable(policies[i].body)
    ensures r.Ok? ==> |r.value| == |policies|
                      && forall i :: 0 <= i < |policies| ==> ResultOf(w, plan, phase, index, pairs, controlPolicy, policies[i], r.value[i])
    ensures r.Ok? <==> forall i :: 0 <= i < |policies| ==> PolicyRefusal(plan, phase, index, pairs, controlPolicy, policies[i]).None?
    ensures r.Err? ==>
              exists i :: 0 <= i < |policies|
                          && var refusal := PolicyRefusal(plan, phase, index, pairs, controlPolicy, policies[i]);
                             refusal.Some? && r.error == Bootstrap(refusal.value)
  {
    hide PolicyRefusal, ResultOf, Facts, Indexes, PlanOk, ReplayOf, PolicyOk, PolicyHashing, Replayable;
    var cs: seq<Candidate> := [];
    for i := 0 to |policies|
      invariant |cs| == i && forall k :: 0 <= k < i ==> ResultOf(w, plan, phase, index, pairs, controlPolicy, policies[k], cs[k])
      invariant forall k :: 0 <= k < i ==> PolicyRefusal(plan, phase, index, pairs, controlPolicy, policies[k]).None?
    {
      var c := AssessPolicy(w, plan, phase, index, pairs, control, controlPolicy, policies[i], es);
      if c.Err? { return Err(c.error); }
      cs := cs + [c.value];
    }
    return Ok(cs);
  }

  // ----- assess

  function ControlPolicy(w: Wording, plan: Plan, issued: int): Policy { Made(w, ControlBody(plan, issued)) }

  /** What every reported result shares with the decision. */
  predicate Fitting(w: Wording, plan: Plan, policy: Policy, c: Candidate, stale: bool) {
    && CandidateOk(w, c) && c.policy == policy && c.policyDigest == policy.digest && policy.body.protocolDigest == plan.protocolDigest
    && (c.inference.Some? ==> SameEstimator(Estimator(plan.alpha, plan.iterations, plan.seed), c.inference.value))
    && (c.status.Stale? <==> stale) && (c.status.Stale? || c.status.Pass? || c.status.Hold? || c.status.Insufficient?)
  }

  lemma ResultFits(w: Wording, plan: Plan, phase: Phase, index: Index, pairs: seq<PairId>, control: Policy, policy: Policy, c: Candidate)
    requires ResultOf(w, plan, phase, index, pairs, control, policy, c) && policy.body.protocolDigest == plan.protocolDigest
    ensures Fitting(w, plan, policy, c, false)
  {
    hide ReplayOf, MetricsMean, GatesFor, CoverageFor, Shortfalls, Paired, Texts, InferenceOk, B.Valid, B.Bootstrap, Effects, Keys;
    CandidateParts(w, c);
    hide CandidateOk;
  }

  lemma CandidateParts(w: Wording, c: Candidate)
    requires CandidateOk(w, c)
    ensures c.policyDigest == c.policy.digest && StatusOk(w, c)
  {
    hide StatusOk;
  }

  lemma StaleFits(w: Wording, plan: Plan, policy: Policy, reasons: seq<Text>)
    requires PolicyOk(w, policy) && policy.body.protocolDigest == plan.protocolDigest && reasons != [] && |reasons| <= MAX_REASONS
    ensures Fitting(w, plan, policy, StaleCandidate(policy, reasons), true)
  {
    StaleIsOk(w, policy, reasons);
    hide CandidateOk;
  }

  /** The top-level status and selection of a phase. */
  predicate Decided(phase: Phase, stale: bool, policies: seq<Policy>, cs: seq<Candidate>, status: AssessmentContract.Status, selected: Option<Policy>)
  {
    && |cs| == |policies| > 0
    && if stale then status == Stale && selected == (if phase.Development? then None else Some(policies[0]))
    else if phase.Development? then
      if exists c :: c in cs && c.status.Pass? then
        && status == Nominated && selected.Some?
        && exists c :: c in cs && c.status.Pass? && c.policy == selected.value
                       && forall d :: d in cs && d.status.Pass? ==> SelectionOrder()(c, d)
      else
        selected == None && status == if forall c :: c in cs ==> c.status.Insufficient? then Insufficient else NoCandidate
    else status == cs[0].status && selected == Some(policies[0])
  }

  method Decide(phase: Phase, stale: bool, policies: seq<Policy>, cs: seq<Candidate>) returns (status: AssessmentContract.Status, selected: Option<Policy>)
    requires |cs| == |policies| > 0
    ensures Decided(phase, stale, policies, cs, status, selected)
  {
    hide SelectionOrder;
    if stale { return Stale, if phase.Development? then None else Some(policies[0]); }
    if phase.Development? {
      var best := SelectCandidate(cs);
      if best.Some? { return Nominated, Some(best.value.policy); }
      return if forall c :: c in cs ==> c.status.Insufficient? then Insufficient else NoCandidate, None;
    }
    return cs[0].status, Some(policies[0]);
  }

  /** The policies that compete with the control. */
  predicate Offered(w: Wording, plan: Plan, phase: Phase, frozen: Option<Policy>, issued: int, p: Policy) {
    if phase.Development? then p == Made(w, p.body) && Authorized(plan, p.body) && p.body.issuedAt == issued && !p.body.kind.ExpertOnly?
    else frozen == Some(p)
  }

  /** A later phase needs one frozen policy that the protocol authorizes. */
  predicate FrozenOk(w: Wording, plan: Plan, frozen: Option<Policy>) {
    frozen.Some? && PolicyOk(w, frozen.value) && Authorized(plan, frozen.value.body)
  }

  /** The policies of a phase: the enumerated space, or the one frozen policy the protocol authorizes. */
  method ChoosePolicies(w: Wording, plan: Plan, phase: Phase, frozen: Option<Policy>, issued: int) returns (r: Result<seq<Policy>, AssessError>)
    requires PlanOk(plan) && PolicyHashing(w) && plan.createdAt <= issued < plan.expiresAt
    ensures r.Ok? ==> Chosen(w, plan, phase, frozen, r.value) && forall p :: p in r.value <==> Offered(w, plan, phase, frozen, issued, p)
    ensures r.Err? <==> !phase.Development? && !FrozenOk(w, plan, frozen)
    ensures r.Err? ==> r.error == if frozen.None? then NoPolicy else PolicyMismatch
  {
    if phase.Development? {
      var ps := EnumeratePolicies(w, plan, issued);
      forall i | 0 <= i < |ps| ensures PolicyOk(w, ps[i]) && Authorized(plan, ps[i].body) { assert ps[i] in ps; }
      assert |ps| >= 1 by { Product(|plan.candidates|, |plan.predicates|); }
      return Ok(ps);
    }
    if frozen.None? { return Err(NoPolicy); }
    if !PolicyOk(w, frozen.value) || !Authorized(plan, frozen.value.body) { return Err(PolicyMismatch); }
    return Ok([frozen.value]);
  }

  lemma Product(a: nat, b: nat)
    requires a >= 1
    ensures a * (b + 1) >= 1
  {
  }

  predicate Chosen(w: Wording, plan: Plan, phase: Phase, frozen: Option<Policy>, ps: seq<Policy>) {
    && |ps| == CandidateCount(plan, phase) && |ps| >= 1 && Ordered(ps)
    && (forall i :: 0 <= i < |ps| ==> PolicyOk(w, ps[i]) && Authorized(plan, ps[i].body))
    && (!phase.Development? ==> frozen.Some? && ps == [frozen.value])
  }

  /** Every policy replayed over one index of the executions. */
  ghost predicate ReplayedAll(w: Wording, plan: Plan, phase: Phase, es: seq<Execution>, base: Policy, index: Index, policies: seq<Policy>, control: Candidate, cs: seq<Candidate>) {
    && Indexes(index, es) && ResultOf(w, plan, phase, index, LogicalPairs(es), base, base, control) && |cs| == |policies|
    && forall i :: 0 <= i < |cs| ==> ResultOf(w, plan, phase, index, LogicalPairs(es), base, policies[i], cs[i])
  }

  /** All results of a phase, stale or replayed. */
  ghost predicate Reported(w: Wording, plan: Plan, phase: Phase, es: seq<Execution>, issued: int, reasons: seq<Text>, policies: seq<Policy>, control: Candidate, cs: seq<Candidate>) {
    var base := ControlPolicy(w, plan, issued);
    && |cs| == |policies|
    && if reasons != [] then
         control == StaleCandidate(base, reasons) && forall i :: 0 <= i < |cs| ==> cs[i] == StaleCandidate(policies[i], reasons)
       else exists index :: ReplayedAll(w, plan, phase, es, base, index, policies, control, cs)
  }

  lemma ControlOk(w: Wording, plan: Plan, issued: int)
    requires PlanOk(plan) && plan.createdAt <= issued < plan.expiresAt
    ensures var c := ControlPolicy(w, plan, issued);
            PolicyOk(w, c) && Replayable(c.body) && c.body.protocolDigest == plan.protocolDigest && c.body.kind.ExpertOnly?
  {
  }

  /** A policy whose result the bootstrap refuses. */
  ghost predicate Refuses(plan: Plan, phase: Phase, es: seq<Execution>, base: Policy, p: Policy) {
    exists index :: Indexes(index, es) && PolicyRefusal(plan, phase, index, LogicalPairs(es), base, p).Some?
  }

  /** The executions determine their index. */
  lemma IndexUnique(a: Index, b: Index, es: seq<Execution>)
    requires Indexes(a, es) && Indexes(b, es)
    ensures a == b
  {
  }

  lemma RefusesIff(plan: Plan, phase: Phase, es: seq<Execution>, index: Index, base: Policy, p: Policy)
    requires Indexes(index, es)
    ensures Refuses(plan, phase, es, base, p) <==> PolicyRefusal(plan, phase, index, LogicalPairs(es), base, p).Some?
  {
    hide PolicyRefusal, LogicalPairs, Indexes;
    if Refuses(plan, phase, es, base, p) {
      var other :| Indexes(other, es) && PolicyRefusal(plan, phase, other, LogicalPairs(es), base, p).Some?;
      IndexUnique(index, other, es);
    }
  }

  /** Why the executions of a phase yield no results: a repeated execution, or bootstrap work that is refused. */
  ghost function ReportRefusal(w: Wording, plan: Plan, phase: Phase, es: seq<Execution>, frozen: Option<Policy>, issued: int): Option<AssessError> {
    var base := ControlPolicy(w, plan, issued);
    if !DistinctIdentities(es) then Some(DuplicateExecution)
    else if exists p :: (p == base || Offered(w, plan, phase, frozen, issued, p)) && Refuses(plan, phase, es, base, p)
    then Some(Bootstrap(B.WorkExceeded))
    else None
  }

  /** One refused policy, the control or an offered one, refuses the phase. */
  lemma RefusedWork(
      w: Wording, plan: Plan, phase: Phase, es: seq<Execution>, frozen: Option<Policy>, issued: int, index: Index, base: Policy, p: Policy)
    requires PlanOk(plan) && |LogicalPairs(es)| <= MAX_REPLAY_ROWS && Indexes(index, es) && DistinctIdentities(es)
    requires base == ControlPolicy(w, plan, issued) && (p == base || Offered(w, plan, phase, frozen, issued, p))
    requires PolicyRefusal(plan, phase, index, LogicalPairs(es), base, p).Some?
    ensures PolicyRefusal(plan, phase, index, LogicalPairs(es), base, p) == Some(B.WorkExceeded)
    ensures ReportRefusal(w, plan, phase, es, frozen, issued) == Some(Bootstrap(B.WorkExceeded))
  {
    OnlyWork(plan, phase, index, LogicalPairs(es), base, p);
    RefusesIff(plan, phase, es, index, base, p);
    hide PolicyRefusal, LogicalPairs, Indexes, PlanOk, DistinctIdentities, Refuses, Offered, ControlPolicy;
  }

  /** A refused policy among the control and the others, with its error. */
  ghost predicate SomeRefused(plan: Plan, phase: Phase, index: Index, pairs: seq<PairId>, base: Policy, policies: seq<Policy>, e: AssessError) {
    exists p :: (p == base || p in policies)
                && var refusal := PolicyRefusal(plan, phase, index, pairs, base, p); refusal.Some? && e == Bootstrap(refusal.value)
  }

  ghost predicate NoneRefused(plan: Plan, phase: Phase, index: Index, pairs: seq<PairId>, base: Policy, policies: seq<Policy>) {
    && PolicyRefusal(plan, phase, index, pairs, base, base).None?
    && forall i :: 0 <= i < |policies| ==> PolicyRefusal(plan, phase, index, pairs, base, policies[i]).None?
  }

  /** No policy is refused: then nothing is. */
  lemma NothingRefused(
      w: Wording, plan: Plan, phase: Phase, es: seq<Execution>, frozen: Option<Policy>, issued: int, index: Index, base: Policy, policies: seq<Policy>)
    requires Indexes(index, es) && DistinctIdentities(es) && base == ControlPolicy(w, plan, issued)
    requires forall p :: p in policies <==> Offered(w, plan, phase, frozen, issued, p)
    requires NoneRefused(plan, phase, index, LogicalPairs(es), base, policies)
    ensures ReportRefusal(w, plan, phase, es, frozen, issued).None?
  {
    hide PolicyRefusal, LogicalPairs, Indexes, DistinctIdentities, Refuses, Offered, ControlPolicy;
    forall p | p == base || Offered(w, plan, phase, frozen, issued, p) ensures !Refuses(plan, phase, es, base, p) {
      RefusesIff(plan, phase, es, index, base, p);
    }
  }

  predicate Ready(w: Wording, policies: seq<Policy>) {
    forall i :: 0 <= i < |policies| ==> PolicyOk(w, policies[i]) && Replayable(policies[i].body)
  }

  lemma BothReady(w: Wording, base: Policy, policies: seq<Policy>)
    ensures Ready(w, [base] + policies) <==> PolicyOk(w, base) && Replayable(base.body) && Ready(w, policies)
  {
    hide PolicyOk, Replayable;
    var all := [base] + policies;
    assert all[0] == base && forall i :: 0 <= i < |policies| ==> all[i + 1] == policies[i];
  }

  /** The control and every policy, replayed over one index. */
  method AssessBoth(w: Wording, plan: Plan, phase: Phase, es: seq<Execution>, index: Index, base: Policy, policies: seq<Policy>)
      returns (r: Result<(Candidate, seq<Candidate>), AssessError>)
    requires PlanOk(plan) && PolicyHashing(w) && Facts(es) && Indexes(index, es) && Ready(w, [base] + policies)
    ensures r.Ok? ==> |r.value.1| == |policies| && ReplayedAll(w, plan, phase, es, base, index, policies, r.value.0, r.value.1)
    ensures r.Ok? ==> NoneRefused(plan, phase, index, LogicalPairs(es), base, policies)
    ensures r.Err? ==> SomeRefused(plan, phase, index, LogicalPairs(es), base, policies, r.error)
  {
    BothReady(w, base, policies);
    hide Facts, PlanOk, PolicyHashing, Replayable, ResultOf, LogicalPairs, ReplayOf, Indexes, PolicyRefusal;
    var pairs := LogicalPairs(es);
    ControlSemantics(w, base);
    hide PolicyOk;
    var replay := ReplayPolicy(base.body, index, pairs);
    var control := AssessPolicy(w, plan, phase, index, pairs, replay, base, base, es);
    if control.Err? { return Err(control.error); }
    var cs := AssessAll(w, plan, phase, index, pairs, replay, base, policies, es);
    if cs.Err? {
      ghost var i :| 0 <= i < |policies| && PolicyRefusal(plan, phase, index, pairs, base, policies[i]).Some?
                     && cs.error == Bootstrap(PolicyRefusal(plan, phase, index, pairs, base, policies[i]).value);
      assert policies[i] in policies;
      return Err(cs.error);
    }
    return Ok((control.value, cs.value));
  }

  lemma SomeRefusedWork(
      w: Wording, plan: Plan, phase: Phase, es: seq<Execution>, frozen: Option<Policy>, issued: int, index: Index, policies: seq<Policy>, e: AssessError)
    requires PlanOk(plan) && |LogicalPairs(es)| <= MAX_REPLAY_ROWS && Indexes(index, es) && DistinctIdentities(es)
    requires forall p :: p in policies <==> Offered(w, plan, phase, frozen, issued, p)
    requires SomeRefused(plan, phase, index, LogicalPairs(es), ControlPolicy(w, plan, issued), policies, e)
    ensures ReportRefusal(w, plan, phase, es, frozen, issued) == Some(e)
  {
    hide PlanOk, LogicalPairs, Indexes, DistinctIdentities, PolicyRefusal, Offered, ControlPolicy, ReportRefusal;
    var base := ControlPolicy(w, plan, issued);
    var p :| (p == base || p in policies) && PolicyRefusal(plan, phase, index, LogicalPairs(es), base, p).Some?
             && e == Bootstrap(PolicyRefusal(plan, phase, index, LogicalPairs(es), base, p).value);
    RefusedWork(w, plan, phase, es, frozen, issued, index, base, p);
  }

  lemma RepeatedRefused(w: Wording, plan: Plan, phase: Phase, es: seq<Execution>, frozen: Option<Policy>, issued: int)
    requires !DistinctIdentities(es)
    ensures ReportRefusal(w, plan, phase, es, frozen, issued) == Some(DuplicateExecution)
  {
  }

  lemma ChosenReady(w: Wording, plan: Plan, phase: Phase, frozen: Option<Policy>, policies: seq<Policy>)
    requires PlanOk(plan) && Chosen(w, plan, phase, frozen, policies)
    ensures Ready(w, policies)
  {
    hide PolicyOk, Replayable, Authorized, PlanOk;
    forall i | 0 <= i < |policies| ensures PolicyOk(w, policies[i]) && Replayable(policies[i].body) { AuthorizedReplays(plan, policies[i].body); }
  }

  /** The results of executions that are not stale. */
  method ReportFresh(w: Wording, plan: Plan, phase: Phase, es: seq<Execution>, frozen: Option<Policy>, issued: int, policies: seq<Policy>)
      returns (r: Result<(Candidate, seq<Candidate>), AssessError>)
    requires PlanOk(plan) && PolicyHashing(w) && Facts(es) && plan.createdAt <= issued < plan.expiresAt && Chosen(w, plan, phase, frozen, policies)
    requires |LogicalPairs(es)| <= MAX_REPLAY_ROWS && forall p :: p in policies <==> Offered(w, plan, phase, frozen, issued, p)
    ensures r.Ok? ==> |r.value.1| == |policies|
                      && exists index :: ReplayedAll(w, plan, phase, es, ControlPolicy(w, plan, issued), index, policies, r.value.0, r.value.1)
    ensures r.Ok? <==> ReportRefusal(w, plan, phase, es, frozen, issued).None?
    ensures r.Err? ==> ReportRefusal(w, plan, phase, es, frozen, issued) == Some(r.error)
  {
    hide Facts, PlanOk, PolicyOk, PolicyHashing, Replayable, Ready, ReplayedAll, ControlPolicy, Authorized, LogicalPairs, Indexes;
    hide PolicyRefusal, SomeRefused, NoneRefused, Offered, Chosen, DistinctIdentities, ReportRefusal;
    ControlOk(w, plan, issued);
    ChosenReady(w, plan, phase, frozen, policies);
    BothReady(w, ControlPolicy(w, plan, issued), policies);
    var base := ControlPolicy(w, plan, issued);
    var index := IndexExecutions(es);
    if index.None? {
      RepeatedRefused(w, plan, phase, es, frozen, issued);
      return Err(DuplicateExecution);
    }
    r := AssessBoth(w, plan, phase, es, index.value, base, policies);
    if r.Err? {
      SomeRefusedWork(w, plan, phase, es, frozen, issued, index.value, policies, r.error);
    } else {
      NothingRefused(w, plan, phase, es, frozen, issued, index.value, base, policies);
    }
  }

  method ReportAll(w: Wording, plan: Plan, phase: Phase, es: seq<Execution>, frozen: Option<Policy>, issued: int, reasons: seq<Text>, policies: seq<Policy>)
      returns (r: Result<(Candidate, seq<Candidate>), AssessError>)
    requires PlanOk(plan) && PolicyHashing(w) && Facts(es) && plan.createdAt <= issued < plan.expiresAt && Chosen(w, plan, phase, frozen, policies)
    requires |LogicalPairs(es)| <= MAX_REPLAY_ROWS && forall p :: p in policies <==> Offered(w, plan, phase, frozen, issued, p)
    ensures r.Ok? ==> Reported(w, plan, phase, es, issued, reasons, policies, r.value.0, r.value.1)
    ensures r.Ok? <==> reasons != [] || ReportRefusal(w, plan, phase, es, frozen, issued).None?
    ensures r.Err? ==> ReportRefusal(w, plan, phase, es, frozen, issued) == Some(r.error)
  {
    hide Facts, PlanOk, PolicyHashing, ReplayedAll, ControlPolicy, LogicalPairs, Offered, Chosen, ReportRefusal, StaleCandidate;
    var base := ControlPolicy(w, plan, issued);
    if |reasons| > 0 {
      return Ok((StaleCandidate(base, reasons), seq(|policies|, i requires 0 <= i < |policies| => StaleCandidate(policies[i], reasons))));
    }
    r := ReportFresh(w, plan, phase, es, frozen, issued, policies);
  }

  lemma ControlSemantics(w: Wording, p: Policy)
    requires PolicyOk(w, p)
    ensures PolicySemantics(p.body)
  {
  }

  lemma ReportedFits(w: Wording, plan: Plan, phase: Phase, es: seq<Execution>, frozen: Option<Policy>, issued: int, reasons: seq<Text>, policies: seq<Policy>, control: Candidate, cs: seq<Candidate>)
    requires PlanOk(plan) && plan.createdAt <= issued < plan.expiresAt && Chosen(w, plan, phase, frozen, policies) && |reasons| <= MAX_REASONS
    requires Reported(w, plan, phase, es, issued, reasons, policies, control, cs)
    ensures Fitting(w, plan, ControlPolicy(w, plan, issued), control, reasons != [])
    ensures |cs| == |policies| && forall i :: 0 <= i < |cs| ==> Fitting(w, plan, policies[i], cs[i], reasons != [])
  {
    hide ControlPolicy, ResultOf, Fitting, Indexes, LogicalPairs, PlanOk, StaleCandidate, PolicyOk, Replayable, CandidateOk;
    ControlOk(w, plan, issued);
    var base := ControlPolicy(w, plan, issued);
    if reasons != [] {
      StaleFits(w, plan, base, reasons);
      forall i | 0 <= i < |cs| ensures Fitting(w, plan, policies[i], cs[i], true) { StaleFits(w, plan, policies[i], reasons); }
    } else {
      var index :| ReplayedAll(w, plan, phase, es, base, index, policies, control, cs);
      ResultFits(w, plan, phase, index, LogicalPairs(es), base, base, control);
      forall i | 0 <= i < |cs| ensures Fitting(w, plan, policies[i], cs[i], false) {
        ResultFits(w, plan, phase, index, LogicalPairs(es), base, policies[i], cs[i]);
      }
    }
  }

  lemma DigestsOrdered(w: Wording, plan: Plan, policies: seq<Policy>, cs: seq<Candidate>, stale: bool)
    requires Ordered(policies) && |cs| == |policies| && forall i :: 0 <= i < |cs| ==> Fitting(w, plan, policies[i], cs[i], stale)
    ensures DigestOrdered(cs)
  {
    hide CandidateOk;
    forall i, j | 0 <= i < j < |cs| ensures Before(cs[i].policyDigest, cs[j].policyDigest) {
      assert Fitting(w, plan, policies[i], cs[i], stale) && Fitting(w, plan, policies[j], cs[j], stale);
    }
  }

  /** The development rules follow from how the status and the selection are chosen. */
  lemma DevelopmentDecided(w: Wording, plan: Plan, d: Decision, policies: seq<Policy>, stale: bool)
    requires |d.candidates| == |policies| > 0 && Decided(Development, stale, policies, d.candidates, d.status, d.selected)
    requires forall i :: 0 <= i < |policies| ==> Fitting(w, plan, policies[i], d.candidates[i], stale)
    ensures DevelopmentOk(d)
    ensures d.selected.Some? ==> d.selected.value in policies
  {
    hide CandidateOk, SelectionOrder;
    var cs := d.candidates;
    if d.status.Nominated? {
      var c :| c in cs && c.status.Pass? && c.policy == d.selected.value;
      var i :| 0 <= i < |cs| && cs[i] == c;
      assert Fitting(w, plan, policies[i], cs[i], stale);
    } else if d.status.NoCandidate? {
      var c :| c in cs && !c.status.Insufficient?;
      var i :| 0 <= i < |cs| && cs[i] == c;
      assert Fitting(w, plan, policies[i], cs[i], stale);
      assert cs[i].status.Hold?;
      forall k | 0 <= k < |cs| ensures !cs[k].status.Pass? { assert cs[k] in cs; }
    } else if d.status.Insufficient? {
      forall k | 0 <= k < |cs| ensures cs[k].status.Insufficient? { assert cs[k] in cs; }
    }
  }

  /** In the later phases the sole candidate is the frozen policy and carries the status. */
  lemma LaterDecided(w: Wording, plan: Plan, d: Decision, policies: seq<Policy>, stale: bool)
    requires |d.candidates| == |policies| == 1 && !d.phase.Development?
    requires Decided(d.phase, stale, policies, d.candidates, d.status, d.selected) && Fitting(w, plan, policies[0], d.candidates[0], stale)
    ensures LaterPhaseOk(d) && d.selected == Some(policies[0])
  {
    hide CandidateOk;
  }

  lemma FittingParts(w: Wording, plan: Plan, d: Decision, policies: seq<Policy>, control: Policy, stale: bool)
    requires d.protocolDigest == plan.protocolDigest && d.estimator == Estimator(plan.alpha, plan.iterations, plan.seed)
    requires Fitting(w, plan, control, d.control, stale) && |d.candidates| == |policies|
    requires forall i :: 0 <= i < |policies| ==> Fitting(w, plan, policies[i], d.candidates[i], stale)
    ensures CandidateOk(w, d.control) && Bound(d, d.control) && d.control.policy == control && (d.control.status.Stale? <==> stale)
    ensures forall i :: 0 <= i < |d.candidates| ==>
              CandidateOk(w, d.candidates[i]) && Bound(d, d.candidates[i]) && (d.candidates[i].status.Stale? <==> stale)
  {
    hide CandidateOk;
  }

  ghost predicate StaleConsistent(d: Decision, reasons: seq<Text>) {
    && d.staleReasons == reasons && (d.status.Stale? <==> reasons != [])
    && (reasons != [] ==> d.control.rejection == reasons && forall i :: 0 <= i < |d.candidates| ==> d.candidates[i].rejection == reasons)
  }

  lemma StaleAgrees(w: Wording, plan: Plan, phase: Phase, es: seq<Execution>, issued: int, policies: seq<Policy>, d: Decision)
    requires |d.candidates| == |policies| > 0 && Reported(w, plan, phase, es, issued, d.staleReasons, policies, d.control, d.candidates)
    requires Decided(phase, d.staleReasons != [], policies, d.candidates, d.status, d.selected)
    requires forall i :: 0 <= i < |policies| ==> Fitting(w, plan, policies[i], d.candidates[i], d.staleReasons != [])
    ensures StaleConsistent(d, d.staleReasons)
  {
    hide ResultOf, CandidateOk, SelectionOrder, Indexes;
    assert Fitting(w, plan, policies[0], d.candidates[0], d.staleReasons != []);
  }

  /** Whatever the phase, the assembled decision meets every rule of the contract. */
  lemma DecisionIsOk(w: Wording, plan: Plan, es: seq<Execution>, frozen: Option<Policy>, issued: int, policies: seq<Policy>, pairs: nat, d: Decision)
    requires PlanOk(plan) && plan.createdAt <= issued < plan.expiresAt && Chosen(w, plan, d.phase, frozen, policies)
    requires WithinBudget(plan, |policies|, pairs) && |d.staleReasons| <= MAX_REASONS && |d.warnings| <= MAX_REASONS
    requires Reported(w, plan, d.phase, es, issued, d.staleReasons, policies, d.control, d.candidates)
    requires |d.candidates| == |policies| && Decided(d.phase, d.staleReasons != [], policies, d.candidates, d.status, d.selected)
    requires d.protocolDigest == plan.protocolDigest && d.estimator == Estimator(plan.alpha, plan.iterations, plan.seed)
    requires d.unavailable == UnavailableNames(d.candidates) && (d.phase.Window? <==> d.windowDigest.Some?)
    ensures DecisionOk(w, d)
  {
    hide DecisionOk, PolicyOk, CandidateOk, Bound, DigestOrdered, DevelopmentOk, LaterPhaseOk, UnavailableNames, Reported, Decided, Fitting;
    var stale := d.staleReasons != [];
    ReportedFits(w, plan, d.phase, es, frozen, issued, d.staleReasons, policies, d.control, d.candidates);
    FittingParts(w, plan, d, policies, ControlPolicy(w, plan, issued), stale);
    DigestsOrdered(w, plan, policies, d.candidates, stale);
    StaleAgrees(w, plan, d.phase, es, issued, policies, d);
    if d.phase.Development? { DevelopmentDecided(w, plan, d, policies, stale); } else { LaterDecided(w, plan, d, policies, stale); }
    FewCandidates(plan, |policies|, pairs);
    ControlOk(w, plan, issued);
    PlanParts(plan);
    SelectedOk(w, plan, d.phase, frozen, policies, d.selected);
    hide PlanOk, Chosen, WithinBudget;
    AllRules(w, d);
  }

  /** The contract, rule by rule. */
  lemma AllRules(w: Wording, d: Decision)
    requires CandidateOk(w, d.control) && Bound(d, d.control) && d.control.policy.body.kind.ExpertOnly?
    requires forall i :: 0 <= i < |d.candidates| ==> CandidateOk(w, d.candidates[i]) && Bound(d, d.candidates[i])
    requires forall i :: 0 <= i < |d.candidates| ==> (d.candidates[i].status.Stale? <==> d.staleReasons != [])
    requires d.control.status.Stale? <==> d.staleReasons != []
    requires 1 <= |d.candidates| <= MAX_CANDIDATES && DigestOrdered(d.candidates) && d.unavailable == UnavailableNames(d.candidates)
    requires 0.0 < d.estimator.alpha < 1.0 && 1 <= d.estimator.iterations <= 1_000_000 && 0 <= d.estimator.seed <= 0xffff_ffff
    requires d.selected.Some? ==> PolicyOk(w, d.selected.value) && d.selected.value.body.protocolDigest == d.protocolDigest
    requires (d.phase.Window? <==> d.windowDigest.Some?) && (if d.phase.Development? then DevelopmentOk(d) else LaterPhaseOk(d))
    requires StaleConsistent(d, d.staleReasons) && |d.staleReasons| <= MAX_REASONS && |d.warnings| <= MAX_REASONS
    ensures DecisionOk(w, d)
  {
    hide CandidateOk, Bound, DigestOrdered, UnavailableNames, PolicyOk, DevelopmentOk, LaterPhaseOk;
  }

  lemma SelectedOk(w: Wording, plan: Plan, phase: Phase, frozen: Option<Policy>, policies: seq<Policy>, selected: Option<Policy>)
    requires Chosen(w, plan, phase, frozen, policies) && (selected.Some? ==> selected.value in policies)
    ensures selected.Some? ==> PolicyOk(w, selected.value) && selected.value.body.protocolDigest == plan.protocolDigest
  {
    hide PolicyOk;
    if selected.Some? {
      var i :| 0 <= i < |policies| && policies[i] == selected.value;
      assert Authorized(plan, policies[i].body);
    }
  }

  /** Where a decision comes from: its policies, their replayed or stale results, and the phase's status and selection. */
  ghost predicate Explained(
      w: Wording, plan: Plan, phase: Phase, es: seq<Execution>, frozen: Option<Policy>, reasons: seq<Text>,
      policies: seq<Policy>, issued: int, d: Decision)
  {
    && d.phase == phase && plan.createdAt <= issued < plan.expiresAt && Chosen(w, plan, phase, frozen, policies)
    && d.staleReasons == reasons
    && Reported(w, plan, phase, es, issued, reasons, policies, d.control, d.candidates)
    && Decided(phase, reasons != [], policies, d.candidates, d.status, d.selected)
  }

  function IssueTime(plan: Plan, asOf: int): int { if plan.createdAt <= asOf < plan.expiresAt then asOf else plan.createdAt }

  /** Why no decision comes out, in the order of the checks. */
  ghost function Refusal(
      w: Wording, plan: Plan, phase: Phase, es: seq<Execution>, frozen: Option<Policy>, windowDigest: Option<Text>,
      asOf: int, staleReasons: seq<Text>, blocked: bool): Option<AssessError>
  {
    var issued := IssueTime(plan, asOf);
    if !WithinBudget(plan, CandidateCount(plan, phase), |LogicalPairs(es)|) then Some(WorkExceeded)
    else if exists e :: e in es && e.trace.split != SplitOf(phase) then Some(WrongSplit)
    else if !phase.Development? && frozen.None? then Some(NoPolicy)
    else if !phase.Development? && !FrozenOk(w, plan, frozen) then Some(PolicyMismatch)
    else if phase.Window? && windowDigest.None? then Some(NoPolicy)
    else if staleReasons != [] then None
    else if blocked then Some(Integrity)
    else ReportRefusal(w, plan, phase, es, frozen, issued)
  }

  /** The decision from its reported parts. */
  method Finish(
      w: Wording, plan: Plan, phase: Phase, ghost es: seq<Execution>, ghost frozen: Option<Policy>, windowDigest: Option<Text>,
      staleReasons: seq<Text>, warnings: seq<Text>, policies: seq<Policy>, ghost issued: int, control: Candidate, cs: seq<Candidate>)
      returns (d: Decision)
    requires PlanOk(plan) && |staleReasons| <= MAX_REASONS && |warnings| <= MAX_REASONS && plan.createdAt <= issued < plan.expiresAt
    requires Chosen(w, plan, phase, frozen, policies) && WithinBudget(plan, |policies|, |LogicalPairs(es)|)
    requires Reported(w, plan, phase, es, issued, staleReasons, policies, control, cs) && (phase.Window? ==> windowDigest.Some?)
    ensures DecisionOk(w, d) && Explained(w, plan, phase, es, frozen, staleReasons, policies, issued, d)
    ensures |d.candidates| == |policies|
  {
    hide PlanOk, Chosen, Reported, Decided, LogicalPairs, DecisionOk, WithinBudget, Explained, UnavailableNames;
    ReportedCount(w, plan, phase, es, issued, staleReasons, policies, control, cs);
    ChosenCount(w, plan, phase, frozen, policies);
    var status, selected := Decide(phase, |staleReasons| > 0, policies, cs);
    var unavailable := UnavailableMetrics(cs);
    d := Decision(
      phase, status, plan.protocolDigest, if phase.Window? then windowDigest else None,
      Estimator(plan.alpha, plan.iterations, plan.seed), control, cs, selected, staleReasons, warnings, unavailable);
    DecisionIsOk(w, plan, es, frozen, issued, policies, |LogicalPairs(es)|, d);
    ExplainedBy(w, plan, es, frozen, policies, issued, d);
  }

  lemma ExplainedBy(w: Wording, plan: Plan, es: seq<Execution>, frozen: Option<Policy>, policies: seq<Policy>, issued: int, d: Decision)
    requires plan.createdAt <= issued < plan.expiresAt && Chosen(w, plan, d.phase, frozen, policies)
    requires Reported(w, plan, d.phase, es, issued, d.staleReasons, policies, d.control, d.candidates)
    requires |d.candidates| == |policies| && Decided(d.phase, d.staleReasons != [], policies, d.candidates, d.status, d.selected)
    ensures Explained(w, plan, d.phase, es, frozen, d.staleReasons, policies, issued, d)
  {
    hide Chosen, Reported, Decided;
  }

  /** assess: any decision it returns is accepted by the contract, and its status and selection are the phase's. */
  method Assess(
      w: Wording, plan: Plan, phase: Phase, es: seq<Execution>, frozen: Option<Policy>, windowDigest: Option<Text>,
      asOf: int, staleReasons: seq<Text>, blocked: bool, warnings: seq<Text>)
      returns (r: Result<Decision, AssessError>, ghost policies: seq<Policy>, ghost issued: int)
    requires PlanOk(plan) && PolicyHashing(w) && Facts(es) && |staleReasons| <= MAX_REASONS && |warnings| <= MAX_REASONS
    ensures r.Ok? ==> DecisionOk(w, r.value)
    ensures r.Ok? ==> Explained(w, plan, phase, es, frozen, staleReasons, policies, issued, r.value)
    ensures r.Ok? ==> forall e :: e in es ==> e.trace.split == SplitOf(phase)
    ensures r.Ok? ==> WithinBudget(plan, |r.value.candidates|, |LogicalPairs(es)|)
    ensures r.Ok? <==> Refusal(w, plan, phase, es, frozen, windowDigest, asOf, staleReasons, blocked).None?
    ensures r.Err? ==> Refusal(w, plan, phase, es, frozen, windowDigest, asOf, staleReasons, blocked) == Some(r.error)
  {
    hide PlanOk, PolicyHashing, Facts, Chosen, Reported, LogicalPairs, DecisionOk, Explained, ReportRefusal, Offered, PolicyOk, Authorized, WithinBudget;
    policies, issued := [], IssueTime(plan, asOf);
    if !WithinBudget(plan, CandidateCount(plan, phase), |LogicalPairs(es)|) { return Err(WorkExceeded), [], issued; }
    if exists e :: e in es && e.trace.split != SplitOf(phase) { return Err(WrongSplit), [], issued; }
    PlanInterval(plan);
    FewPairs(plan, CandidateCount(plan, phase), |LogicalPairs(es)|);
    var issueTime := if plan.createdAt <= asOf < plan.expiresAt then asOf else plan.createdAt;
    var chosen := ChoosePolicies(w, plan, phase, frozen, issueTime);
    if chosen.Err? { return Err(chosen.error), [], issued; }
    policies := chosen.value;
    ChosenCount(w, plan, phase, frozen, chosen.value);
    if phase.Window? && windowDigest.None? { return Err(NoPolicy), policies, issued; }
    if |staleReasons| == 0 && blocked { return Err(Integrity), policies, issued; }
    var reported := ReportAll(w, plan, phase, es, frozen, issueTime, staleReasons, chosen.value);
    if reported.Err? { return Err(reported.error), policies, issued; }
    var d := Finish(
      w, plan, phase, es, frozen, windowDigest, staleReasons, warnings, chosen.value, issueTime, reported.value.0, reported.value.1);
    r := Ok(d);
  }

  lemma FewPairs(plan: Plan, candidates: nat, pairs: nat)
    requires WithinBudget(plan, candidates, pairs)
    ensures pairs <= MAX_REPLAY_ROWS
  {
    hide EstimatedNodes;
    assert (candidates + 1) * pairs == candidates * pairs + pairs;
    MoreRows(candidates, pairs);
  }

  lemma MoreRows(a: nat, b: nat)
    ensures a * b >= 0
  {
  }

  lemma PlanInterval(plan: Plan)
    requires PlanOk(plan)
    ensures plan.createdAt < plan.expiresAt
  {
  }

  lemma ChosenCount(w: Wording, plan: Plan, phase: Phase, frozen: Option<Policy>, ps: seq<Policy>)
    requires Chosen(w, plan, phase, frozen, ps)
    ensures |ps| == CandidateCount(plan, phase) && |ps| >= 1
  {
  }

  lemma ReportedCount(w: Wording, plan: Plan, phase: Phase, es: seq<Execution>, issued: int, reasons: seq<Text>, policies: seq<Policy>, control: Candidate, cs: seq<Candidate>)
    requires Reported(w, plan, phase, es, issued, reasons, policies, control, cs)
    ensures |cs| == |policies|
  {
  }

  /** A protocol that requires measured service capacity can never pass a window: no attested measurement exists yet. */
  lemma CapacityNeverPasses(w: Wording, plan: Plan, policy: Policy, candidate: Replay, control: Replay, evidence: seq<Replayed>, c: Candidate)
    requires plan.gates.capacity.Some? && Assessed(w, plan, Window, policy, candidate, control, evidence, c)
    ensures c.status.Insufficient? && c.inference.None? && w.reason(CapacityUnavailable) in c.insufficiency
  {
    var short := Shortfalls(plan, Window, candidate, control, c.metrics, Paired(candidate.rows, control.rows));
    CapacityListed(plan, candidate, control, c.metrics, Paired(candidate.rows, control.rows));
    hide Shortfalls, MetricsMean, GatesFor, CoverageFor, InferenceIs, Paired;
    var texts := Map(w.reason, short);
    var i :| 0 <= i < |short| && short[i] == CapacityUnavailable;
    assert texts[i] == w.reason(CapacityUnavailable);
    KeysAre(texts, Itself);
    assert Itself(texts[i]) in Distinct(texts);
    KeysDistinct(texts, Itself);
    SlicesOk(Distinct(texts));
  }

  lemma CapacityListed(plan: Plan, candidate: Replay, control: Replay, m: Metrics, paired: seq<Replayed>)
    requires plan.gates.capacity.Some?
    ensures CapacityUnavailable in Shortfalls(plan, Window, candidate, control, m, paired)
  {
    hide CoverageShort, Gather, Keys;
  }

  /** A candidate that passes meets every limit of the protocol and lost nothing to missing evidence. */
  lemma PassingMeans(w: Wording, plan: Plan, phase: Phase, policy: Policy, candidate: Replay, control: Replay, evidence: seq<Replayed>, c: Candidate)
    requires PlanOk(plan) && Assessed(w, plan, phase, policy, candidate, control, evidence, c) && c.status.Pass?
    ensures !CapacityRequired(plan, phase) && c.inference.Some? && c.inference.value.lo >= plan.gates.nonInferiorityMargin
    ensures c.metrics.meanScore.value.Some? && c.metrics.meanScore.value.value >= plan.gates.minimumMeanScore
    ensures c.metrics.failureRate.value.Some? && c.metrics.failureRate.value.value <= plan.gates.maximumFailureRate
    ensures c.metrics.ttft.value.Some? && c.metrics.ttft.value.value <= plan.gates.maximumTtft
    ensures c.metrics.endToEnd.value.Some? && c.metrics.endToEnd.value.value <= plan.gates.maximumEndToEnd
    ensures c.metrics.cost.value.Some? && c.metrics.cost.value.value <= plan.gates.maximumCost
    ensures c.metrics.evidenceCoverage.value.Some? && c.metrics.evidenceCoverage.value.value >= plan.gates.minimumCoverage
    ensures c.coverage.groupCount >= plan.gates.minimumGroups
    ensures forall s :: s in plan.criticalSlices ==> SliceGroupCount(Paired(candidate.rows, control.rows), s) >= plan.gates.minimumSliceGroups
    ensures forall r :: r in candidate.rows ==> r.reason.None?
  {
    var paired := Paired(candidate.rows, control.rows);
    CoverageCounts(plan, evidence, candidate.rows, paired, c.inference);
    NothingShort(plan, phase, candidate, control, c.metrics, paired);
    hide Shortfalls, MetricsMean, CoverageFor, InferenceIs, Paired, Keys, GatesFor, AllPass;
    PlanUnique(plan);
    PassMeans(w, plan, phase, c.metrics, c.inference, paired);
  }

  lemma PlanUnique(plan: Plan)
    requires PlanOk(plan)
    ensures NoDuplicates(plan.criticalSlices)
  {
  }

  lemma NothingShort(plan: Plan, phase: Phase, candidate: Replay, control: Replay, m: Metrics, paired: seq<Replayed>)
    ensures Shortfalls(plan, phase, candidate, control, m, paired) == [] ==>
              !CapacityRequired(plan, phase) && forall r :: r in candidate.rows ==> r.reason.None?
  {
    hide CoverageShort, Keys, SliceGroupCount;
    GatherMembers(candidate.rows, ReasonOf);
    var listed := Gather(candidate.rows, ReasonOf);
    if r :| r in candidate.rows && r.reason.Some? {
      assert r.reason.value in ReasonOf(r);
      assert r.reason.value in listed && |listed| > 0;
    }
    assert |Shortfalls(plan, phase, candidate, control, m, paired)| >= |listed|;
  }
}
