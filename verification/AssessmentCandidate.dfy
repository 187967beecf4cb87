/** One candidate against the control: coverage, inference, gates, reasons and status. */
module AssessmentCandidate {
  import opened CodeUnits
  import opened Wrappers
  import opened Sorting
  import opened Grouping
  import opened EvidenceModel
  import opened AssessmentContract
  import opened AssessmentEngine
  import opened AssessmentRows
  import S = Statistics
  import B = Bootstrap

  // ----- pairing

  predicate SamePair(a: Replayed, b: Replayed) { a.row.caseId == b.row.caseId && a.row.replicateId == b.row.replicateId }

  /** The scored control row of a pair. */
  function ControlFor(control: seq<Replayed>, r: Replayed): Option<Replayed> {
    if control == [] then None
    else
      var last := control[|control| - 1];
      if Available(last) && SamePair(last, r) then Some(last) else ControlFor(control[..|control| - 1], r)
  }

  function PairedBy(control: seq<Replayed>): Replayed -> seq<Replayed> {
    (r: Replayed) => if Available(r) && ControlFor(control, r).Some? then [r] else []
  }

  /** Candidate rows scored on both sides. */
  function Paired(candidate: seq<Replayed>, control: seq<Replayed>): seq<Replayed> { Gather(candidate, PairedBy(control)) }

  lemma {:induction false} ControlIs(control: seq<Replayed>, r: Replayed)
    ensures var c := ControlFor(control, r); c.Some? ==> c.value in control && Available(c.value) && SamePair(c.value, r)
  {
    if control != [] { DropLast(control); assert control[|control| - 1] in control; ControlIs(control[..|control| - 1], r); }
  }

  lemma PairedOk(candidate: seq<Replayed>, control: seq<Replayed>, es: seq<Execution>)
    requires RowsOk(candidate, es)
    ensures RowsOk(Paired(candidate, control), es)
    ensures forall r :: r in Paired(candidate, control) ==> Available(r) && ControlFor(control, r).Some?
  {
    GatherMembers(candidate, PairedBy(control));
    hide ReplayedOk, ControlFor;
  }

  // ----- counting distinct keys

  /** Fewer distinct values of a key that another key determines. */
  lemma {:induction false} CoarserKeys<T(!new), J(!new), K(!new)>(xs: seq<T>, fine: T -> J, coarse: T -> K)
    requires forall a, b :: a in xs && b in xs && fine(a) == fine(b) ==> coarse(a) == coarse(b)
    ensures |Keys(xs, coarse)| <= |Keys(xs, fine)|
  {
    if xs != [] {
      var n := |xs| - 1;
      DropLast(xs);
      CoarserKeys(xs[..n], fine, coarse);
      KeysAre(xs[..n], fine);
      KeysAre(xs[..n], coarse);
      assert xs[n] in xs;
    }
  }

  lemma {:induction false} KeysAtMost<T, K(!new)>(xs: seq<T>, key: T -> K)
    ensures |Keys(xs, key)| <= |xs|
  {
    if xs != [] { KeysAtMost(xs[..|xs| - 1], key); }
  }

  /** Distinct elements drawn from ys are at most as many as ys. */
  lemma DistinctWithin<T(!new)>(xs: seq<T>, ys: seq<T>)
    requires NoDuplicates(xs) && forall a :: a in xs ==> a in ys
    ensures |xs| <= |ys|
  {
    NoDuplicatesCounted(xs);
    forall a ensures multiset(xs)[a] <= multiset(ys)[a] {
      assert a in multiset(xs) <==> a in xs;
      assert a in multiset(ys) <==> a in ys;
    }
    assert multiset(xs) <= multiset(ys);
    assert |multiset(xs)| <= |multiset(ys)| by { MultisetSizes(multiset(xs), multiset(ys)); }
  }

  lemma MultisetSizes<T>(a: multiset<T>, b: multiset<T>)
    requires a <= b
    ensures |a| <= |b|
  {
    assert b == a + (b - a);
  }

  lemma SubsetKeys<T(!new), K(!new)>(xs: seq<T>, ys: seq<T>, key: T -> K)
    requires forall a :: a in xs ==> a in ys
    ensures |Keys(xs, key)| <= |Keys(ys, key)|
  {
    KeysAre(xs, key);
    KeysAre(ys, key);
    KeysDistinct(xs, key);
    DistinctWithin(Keys(xs, key), Keys(ys, key));
  }

  function InSlice(slice: Text): Replayed -> seq<Replayed> { (r: Replayed) => if slice in r.row.slices then [r] else [] }

  /** Independent groups with a paired row in the slice. */
  function SliceGroupCount(paired: seq<Replayed>, slice: Text): nat { |Keys(Gather(paired, InSlice(slice)), GroupOf)| }

  function SliceCountBy(paired: seq<Replayed>): Text -> (Text, nat) { s => (s, SliceGroupCount(paired, s)) }

  // ----- coverage

  /** Groups within cases within rows; a slice never has more groups than the whole. */
  lemma CountsNest(paired: seq<Replayed>, es: seq<Execution>)
    requires RowsOk(paired, es) && Facts(es)
    ensures |Keys(paired, GroupOf)| <= |Keys(paired, CaseOf)| <= |paired|
    ensures forall s :: SliceGroupCount(paired, s) <= |Keys(paired, GroupOf)|
  {
    forall a, b | a in paired && b in paired && CaseOf(a) == CaseOf(b) ensures GroupOf(a) == GroupOf(b) { SameGroup(paired, es, a, b); }
    CoarserKeys(paired, CaseOf, GroupOf);
    KeysAtMost(paired, CaseOf);
    forall s ensures SliceGroupCount(paired, s) <= |Keys(paired, GroupOf)| {
      GatherMembers(paired, InSlice(s));
      SubsetKeys(Gather(paired, InSlice(s)), paired, GroupOf);
    }
  }

  lemma SameGroup(rows: seq<Replayed>, es: seq<Execution>, a: Replayed, b: Replayed)
    requires RowsOk(rows, es) && Facts(es) && a in rows && b in rows && CaseOf(a) == CaseOf(b)
    ensures GroupOf(a) == GroupOf(b)
  {
    hide ReplayedOk, ExecutionOk;
    var e :| e in es && e.trace.caseId == CaseOf(a) && e.trace.groupId == GroupOf(a);
    var f :| f in es && f.trace.caseId == CaseOf(b) && f.trace.groupId == GroupOf(b);
  }

  lemma {:induction false} DistinctSlices(ss: seq<Text>, paired: seq<Replayed>)
    requires NoDuplicates(ss)
    ensures var counts := Map(SliceCountBy(paired), SortStrings(ss));
            && |counts| == |ss| && forall i, j :: 0 <= i < j < |counts| ==> counts[i].0 != counts[j].0
  {
    SlicesOk(ss);
    var sorted := SortStrings(ss);
    hide SortStrings, SliceGroupCount;
    var counts := Map(SliceCountBy(paired), sorted);
    assert forall i :: 0 <= i < |counts| ==> counts[i].0 == sorted[i];
  }

  function FirstRowBy(paired: seq<Replayed>): Text -> seq<Replayed> {
    k => var g := Group(paired, CaseOf, k); if g == [] then [] else [g[0]]
  }

  function RowWeightOf(r: Replayed): real { r.row.weight }

  /** Traffic weight of one row per case. */
  function CaseMass(paired: seq<Replayed>): real { S.Total(Gather(Keys(paired, CaseOf), FirstRowBy(paired)), RowWeightOf) }

  lemma {:induction false} WeightsAdd(rows: seq<Replayed>)
    requires forall r :: r in rows ==> r.row.weight > 0.0
    ensures S.Total(rows, RowWeightOf) >= 0.0
  {
    if rows != [] { DropLast(rows); assert rows[|rows| - 1] in rows; WeightsAdd(rows[..|rows| - 1]); }
  }

  lemma CaseMassNonNegative(paired: seq<Replayed>)
    requires forall r :: r in paired ==> r.row.weight > 0.0
    ensures CaseMass(paired) >= 0.0
  {
    var firsts := Gather(Keys(paired, CaseOf), FirstRowBy(paired));
    GatherMembers(Keys(paired, CaseOf), FirstRowBy(paired));
    forall r | r in firsts ensures r.row.weight > 0.0 {
      var k :| k in Keys(paired, CaseOf) && r in FirstRowBy(paired)(k);
      GroupMembers(paired, CaseOf, k);
      assert r in Group(paired, CaseOf, k);
    }
    WeightsAdd(firsts);
  }

  function FailedRow(r: Replayed): seq<Replayed> { if r.row.success then [] else [r] }
  function ScoredRow(r: Replayed): seq<Replayed> { if Available(r) then [r] else [] }

  function UnscoredRow(r: Replayed): seq<Replayed> { if Available(r) then [] else [r] }

  /** Share of the rows that carry a score. */
  function CoverageValue(rows: seq<Replayed>): real {
    if rows == [] then 0.0 else |Gather(rows, ScoredRow)| as real / |rows| as real
  }

  lemma CoverageWithin(rows: seq<Replayed>)
    ensures 0.0 <= CoverageValue(rows) <= 1.0
  {
    AtMostOne(rows, ScoredRow);
    if rows != [] { Fraction(|Gather(rows, ScoredRow)|, |rows|); }
  }

  lemma Fraction(a: nat, b: nat)
    requires a <= b && b > 0
    ensures 0.0 <= a as real / b as real <= 1.0
  {
    B.Quotient(0.0, 1.0, a as real, b as real);
  }

  // ----- inference

  /** Score difference of a paired row to its control. */
  function Delta(control: seq<Replayed>): Replayed -> real {
    (r: Replayed) => var c := ControlFor(control, r); if c.Some? then ScoreValue(r) - ScoreValue(c.value) else 0.0
  }

  function EffectBy(paired: seq<Replayed>, control: seq<Replayed>): Text -> seq<B.CaseEffect> {
    k =>
      var g := Group(paired, CaseOf, k);
      if g == [] then [] else [B.CaseEffect(k, g[0].row.groupId, B.Median(Map(Delta(control), g)), g[0].row.weight)]
  }

  /** One effect per case, in case order: the median of its replicates' differences. */
  function Effects(paired: seq<Replayed>, control: seq<Replayed>): seq<B.CaseEffect> {
    Gather(SortStrings(Keys(paired, CaseOf)), EffectBy(paired, control))
  }

  lemma {:induction false} GatherSingles<A(!new), B>(xs: seq<A>, f: A -> seq<B>)
    requires forall x :: x in xs ==> |f(x)| == 1
    ensures |Gather(xs, f)| == |xs| && forall i :: 0 <= i < |xs| ==> [Gather(xs, f)[i]] == f(xs[i])
  {
    if xs != [] {
      var n := |xs| - 1;
      DropLast(xs);
      assert xs[n] in xs;
      GatherSingles(xs[..n], f);
    }
  }

  lemma SortedCases(paired: seq<Replayed>)
    ensures var ks := SortStrings(Keys(paired, CaseOf));
            NoDuplicates(ks) && |ks| == |Keys(paired, CaseOf)| && forall k :: k in ks <==> k in Keys(paired, CaseOf)
  {
    KeysDistinct(paired, CaseOf);
    SlicesOk(Keys(paired, CaseOf));
  }

  lemma EffectAt(paired: seq<Replayed>, control: seq<Replayed>, es: seq<Execution>, k: Text)
    requires RowsOk(paired, es) && k in Keys(paired, CaseOf)
    ensures var f := EffectBy(paired, control)(k);
            |f| == 1 && f[0].caseId == k && B.CaseOk(f[0]) && exists r :: r in paired && CaseOf(r) == k && GroupOf(r) == f[0].groupId
  {
    GroupMembers(paired, CaseOf, k);
    var g := Group(paired, CaseOf, k);
    assert g[0] in g;
    hide B.Median;
  }

  lemma EffectsOk(paired: seq<Replayed>, control: seq<Replayed>, es: seq<Execution>)
    requires RowsOk(paired, es) && Facts(es)
    ensures var cs := Effects(paired, control); B.CasesOk(cs) && |cs| == |Keys(paired, CaseOf)|
    ensures |Keys(Effects(paired, control), B.GroupIdOf)| == |Keys(paired, GroupOf)|
  {
    var ks, f, cs := SortStrings(Keys(paired, CaseOf)), EffectBy(paired, control), Effects(paired, control);
    SortedCases(paired);
    forall k | k in ks ensures |f(k)| == 1 && f(k)[0].caseId == k && B.CaseOk(f(k)[0])
                               && exists r :: r in paired && CaseOf(r) == k && GroupOf(r) == f(k)[0].groupId {
      EffectAt(paired, control, es, k);
    }
    hide EffectBy, SortStrings, RowsOk;
    GatherSingles(ks, f);
    forall i | 0 <= i < |cs| ensures cs[i].caseId == ks[i] && B.CaseOk(cs[i]) { assert [cs[i]] == f(ks[i]) && ks[i] in ks; }
    var ids := Map(B.CaseIdOf, cs);
    forall i | 0 <= i < |cs| ensures ids[i] == ks[i] { assert ids[i] == B.CaseIdOf(cs[i]); }
    assert ids == ks;
    EffectGroups(paired, control, es, ks);
  }

  lemma EffectGroupIsRowGroup(paired: seq<Replayed>, control: seq<Replayed>, es: seq<Execution>, ks: seq<Text>, c: B.CaseEffect)
    requires RowsOk(paired, es) && ks == SortStrings(Keys(paired, CaseOf)) && c in Effects(paired, control)
    ensures c.groupId in Keys(paired, GroupOf)
  {
    hide RowsOk, EffectBy;
    SortedCases(paired);
    KeysAre(paired, GroupOf);
    GatherMembers(ks, EffectBy(paired, control));
    var k :| k in ks && c in EffectBy(paired, control)(k);
    EffectAt(paired, control, es, k);
    var r :| r in paired && CaseOf(r) == k && GroupOf(r) == c.groupId;
    assert GroupOf(r) in Keys(paired, GroupOf);
  }

  lemma RowGroupIsEffectGroup(paired: seq<Replayed>, control: seq<Replayed>, es: seq<Execution>, ks: seq<Text>, r: Replayed)
    requires RowsOk(paired, es) && Facts(es) && ks == SortStrings(Keys(paired, CaseOf)) && r in paired
    ensures exists c :: c in Effects(paired, control) && c.groupId == GroupOf(r)
  {
    hide RowsOk, EffectBy, Facts;
    SortedCases(paired);
    KeysAre(paired, CaseOf);
    GatherMembers(ks, EffectBy(paired, control));
    var f := EffectBy(paired, control)(CaseOf(r));
    assert CaseOf(r) in Keys(paired, CaseOf);
    EffectAt(paired, control, es, CaseOf(r));
    var q :| q in paired && CaseOf(q) == CaseOf(r) && GroupOf(q) == f[0].groupId;
    SameGroup(paired, es, q, r);
    assert f[0] in f && f[0] in Effects(paired, control);
  }

  /** The cases' groups are the rows' groups. */
  lemma EffectGroups(paired: seq<Replayed>, control: seq<Replayed>, es: seq<Execution>, ks: seq<Text>)
    requires RowsOk(paired, es) && Facts(es) && ks == SortStrings(Keys(paired, CaseOf))
    ensures |Keys(Effects(paired, control), B.GroupIdOf)| == |Keys(paired, GroupOf)|
  {
    hide RowsOk, Facts, Effects, Keys;
    var cs := Effects(paired, control);
    KeysAre(cs, B.GroupIdOf);
    KeysAre(paired, GroupOf);
    forall g ensures g in Keys(cs, B.GroupIdOf) <==> g in Keys(paired, GroupOf) {
      if g in Keys(cs, B.GroupIdOf) {
        var c :| c in cs && B.GroupIdOf(c) == g;
        EffectGroupIsRowGroup(paired, control, es, ks, c);
      }
      if g in Keys(paired, GroupOf) {
        var r :| r in paired && GroupOf(r) == g;
        RowGroupIsEffectGroup(paired, control, es, ks, r);
        var c :| c in cs && c.groupId == GroupOf(r);
        assert B.GroupIdOf(c) in Keys(cs, B.GroupIdOf);
      }
    }
    KeysDistinct(cs, B.GroupIdOf);
    KeysDistinct(paired, GroupOf);
    SameMembersPermute(Keys(cs, B.GroupIdOf), Keys(paired, GroupOf));
    SameSize(Keys(cs, B.GroupIdOf), Keys(paired, GroupOf));
  }

  lemma GroupSumCount(cs: seq<B.CaseEffect>)
    ensures |B.GroupSums(cs)| == |Keys(cs, B.GroupIdOf)|
  {
    var arranged := B.Arranged(cs);
    SortPermutes(cs, B.CaseOrder());
    KeysPermute(arranged, cs, B.GroupIdOf);
    SameSize(Keys(arranged, B.GroupIdOf), Keys(cs, B.GroupIdOf));
    SortPermutes(Keys(arranged, B.GroupIdOf), ByKey(Itself));
  }

  /** i is the bootstrap of the case effects, over the paired population. */
  predicate InferenceIs(plan: Plan, paired: seq<Replayed>, control: seq<Replayed>, i: Inference) {
    var cs := Effects(paired, control);
    && InferenceOk(i) && i.alpha == plan.alpha && i.iterations == plan.iterations && i.seed == plan.seed
    && i.caseCount == |Keys(paired, CaseOf)| && i.replicateCount == |paired| && i.groupCount == |Keys(paired, GroupOf)|
    && B.Valid(cs, plan.iterations, plan.alpha, |paired|)
    && var b := B.Bootstrap(cs, plan.iterations, plan.alpha, plan.seed, |paired|);
       i.lo == b.lo && i.hi == b.hi && i.estimate == b.estimate && i.mass == b.mass
  }

  /** Why the bootstrap refuses a paired population: only its size can be at fault. */
  function InferenceRefusal(plan: Plan, paired: seq<Replayed>): Option<B.BootstrapError> {
    var cases, groups := |Keys(paired, CaseOf)|, |Keys(paired, GroupOf)|;
    if paired == [] then Some(B.NoCases)
    else if cases > 100_000 then Some(B.TooManyCases)
    else if |paired| > 1_000_000 then Some(B.BadReplicates)
    else if groups > 0 && plan.iterations > 100_000_000 / groups then Some(B.WorkExceeded)
    else None
  }

  lemma NoKeys<T(!new), K(!new)>(xs: seq<T>, key: T -> K)
    ensures Keys(xs, key) == [] <==> xs == []
  {
    KeysAre(xs, key);
    if xs != [] { assert xs[0] in xs && key(xs[0]) in Keys(xs, key); }
  }

  lemma EffectsRefusal(plan: Plan, paired: seq<Replayed>, control: seq<Replayed>, es: seq<Execution>)
    requires PlanOk(plan) && RowsOk(paired, es) && Facts(es)
    ensures B.Refusal(Effects(paired, control), plan.iterations, plan.alpha, |paired|) == InferenceRefusal(plan, paired)
  {
    EffectsOk(paired, control, es);
    CountsNest(paired, es);
    GroupSumCount(Effects(paired, control));
    NoKeys(paired, CaseOf);
    hide Effects, B.CasesOk, B.GroupSums, RowsOk, Facts, Keys, SliceGroupCount;
  }

  /** The paired inference: it fails exactly when the population's size is refused. */
  method Infer(plan: Plan, paired: seq<Replayed>, control: seq<Replayed>, ghost es: seq<Execution>)
      returns (r: Result<Inference, B.BootstrapError>)
    requires PlanOk(plan) && RowsOk(paired, es) && Facts(es)
    ensures r.Ok? ==> InferenceIs(plan, paired, control, r.value)
    ensures r.Ok? <==> InferenceRefusal(plan, paired).None?
    ensures r.Err? ==> InferenceRefusal(plan, paired) == Some(r.error)
  {
    EffectsOk(paired, control, es);
    CountsNest(paired, es);
    EffectsRefusal(plan, paired, control, es);
    var cs := Effects(paired, control);
    GroupSumCount(cs);
    B.ValidIffNotRefused(cs, plan.iterations, plan.alpha, |paired|);
    hide Effects, B.CasesOk, B.GroupSums, PlanOk, RowsOk, Facts, InferenceRefusal, B.Refusal;
    PlanParts(plan);
    var b := B.BootstrapGroupedWeightedMeanCI(cs, plan.iterations, plan.alpha, plan.seed, |paired|);
    if b.Err? { return Err(b.error); }
    B.IntervalOrdered(cs, plan.iterations, plan.alpha, plan.seed, |paired|);
    B.GroupsPositive(cs);
    var v := b.value;
    return Ok(Inference(plan.alpha, v.caseCount, v.replicateCount, v.groupCount, v.mass, v.estimate, v.lo, v.hi,
                        plan.iterations, plan.seed, v.positive));
  }

  lemma PlanParts(plan: Plan)
    requires PlanOk(plan)
    ensures 0.0 < plan.alpha < 1.0 && 1 <= plan.iterations <= 1_000_000 && 0 <= plan.seed <= 0xffff_ffff
  {
  }

  // ----- reasons

  function ReasonOf(r: Replayed): seq<Shortfall> { if r.reason.Some? then [r.reason.value] else [] }

  predicate CapacityRequired(plan: Plan, phase: Phase) { phase.Window? && plan.gates.capacity.Some? }

  function SliceShort(plan: Plan, paired: seq<Replayed>): Text -> seq<Shortfall> {
    s => if SliceGroupCount(paired, s) < plan.gates.minimumSliceGroups then [SliceGroups(s)] else []
  }

  predicate CoverageShort(plan: Plan, m: Metrics) {
    m.evidenceCoverage.value.None? || m.evidenceCoverage.value.value < plan.gates.minimumCoverage
  }

  /** Everything that makes the evidence insufficient, in the order the engine notices it. */
  function Shortfalls(plan: Plan, phase: Phase, candidate: Replay, control: Replay, m: Metrics, paired: seq<Replayed>): seq<Shortfall> {
    candidate.reasons + control.reasons + Gather(candidate.rows, ReasonOf) + Gather(control.rows, ReasonOf)
    + (if CapacityRequired(plan, phase) then [CapacityUnavailable] else [])
    + (if CoverageShort(plan, m) then [EvaluatorCoverage] else [])
    + (if m.cost.value.None? then [CostUnavailable] else [])
    + (if |Keys(paired, GroupOf)| < plan.gates.minimumGroups then [IndependentGroups] else [])
    + Gather(plan.criticalSlices, SliceShort(plan, paired))
  }

  /** Nothing is missing: every pair replayed with its evidence, costs known, and enough coverage, groups and slices. */
  predicate Sufficient(plan: Plan, phase: Phase, candidate: Replay, control: Replay, evidence: seq<Replayed>) {
    var paired := Paired(candidate.rows, control.rows);
    && candidate.reasons == [] && control.reasons == []
    && (forall i :: 0 <= i < |candidate.rows| ==> candidate.rows[i].reason.None?)
    && (forall i :: 0 <= i < |control.rows| ==> control.rows[i].reason.None?)
    && !CapacityRequired(plan, phase)
    && evidence != [] && CoverageValue(evidence) >= plan.gates.minimumCoverage
    && candidate.rows != [] && AllCosted(candidate.rows)
    && |Keys(paired, GroupOf)| >= plan.gates.minimumGroups
    && forall i :: 0 <= i < |plan.criticalSlices| ==> SliceGroupCount(paired, plan.criticalSlices[i]) >= plan.gates.minimumSliceGroups
  }

  lemma {:induction false} NothingGathered<A, B>(xs: seq<A>, f: A -> seq<B>)
    ensures Gather(xs, f) == [] <==> forall i :: 0 <= i < |xs| ==> f(xs[i]) == []
  {
    if xs != [] {
      var n := |xs| - 1;
      NothingGathered(xs[..n], f);
      assert forall i :: 0 <= i < n ==> xs[..n][i] == xs[i];
    }
  }

  lemma ShortfallCount(plan: Plan, phase: Phase, candidate: Replay, control: Replay, m: Metrics, paired: seq<Replayed>)
    ensures |Shortfalls(plan, phase, candidate, control, m, paired)|
         == |candidate.reasons| + |control.reasons| + |Gather(candidate.rows, ReasonOf)| + |Gather(control.rows, ReasonOf)|
          + (if CapacityRequired(plan, phase) then 1 else 0) + (if CoverageShort(plan, m) then 1 else 0)
          + (if m.cost.value.None? then 1 else 0) + (if |Keys(paired, GroupOf)| < plan.gates.minimumGroups then 1 else 0)
          + |Gather(plan.criticalSlices, SliceShort(plan, paired))|
  {
    hide Gather, CapacityRequired, CoverageShort, Keys;
  }

  lemma NoRowReasons(rows: seq<Replayed>)
    ensures |Gather(rows, ReasonOf)| == 0 <==> forall i :: 0 <= i < |rows| ==> rows[i].reason.None?
  {
    NothingGathered(rows, ReasonOf);
    hide Gather;
  }

  lemma NoSliceShort(plan: Plan, paired: seq<Replayed>)
    ensures |Gather(plan.criticalSlices, SliceShort(plan, paired))| == 0 <==>
            forall i :: 0 <= i < |plan.criticalSlices| ==> SliceGroupCount(paired, plan.criticalSlices[i]) >= plan.gates.minimumSliceGroups
  {
    NothingGathered(plan.criticalSlices, SliceShort(plan, paired));
    hide Gather, SliceGroupCount;
  }

  /** Computed metrics leave no shortfall exactly when the evidence is sufficient. */
  lemma SufficientIff(w: Wording, plan: Plan, phase: Phase, candidate: Replay, control: Replay, evidence: seq<Replayed>, m: Metrics)
    requires MetricsMean(w, candidate.rows, m)
    requires m.evidenceCoverage.value == if evidence == [] then None else Some(CoverageValue(evidence))
    ensures Shortfalls(plan, phase, candidate, control, m, Paired(candidate.rows, control.rows)) == [] <==>
            Sufficient(plan, phase, candidate, control, evidence)
  {
    hide MetricsMean, Gather, CoverageValue, Keys, Paired, SliceGroupCount, AllCosted, Shortfalls, CapacityRequired, SliceShort;
    var paired := Paired(candidate.rows, control.rows);
    ShortfallCount(plan, phase, candidate, control, m, paired);
    NoRowReasons(candidate.rows);
    NoRowReasons(control.rows);
    NoSliceShort(plan, paired);
    CostKnown(w, candidate.rows, m);
  }

  lemma CostKnown(w: Wording, rows: seq<Replayed>, m: Metrics)
    requires MetricsMean(w, rows, m)
    ensures m.cost.value.Some? <==> rows != [] && AllCosted(rows)
  {
    hide S.IsQuantile, S.Mass, Weighed, Mean;
  }

  const FIXED_SHORTFALLS: seq<Shortfall> := [
    ProfileMissing, RouteSignalMissing, ExecutionAmbiguous, EvaluatorAbstained, EvidenceMissing, EvidenceInvalid,
    CapacityUnavailable, EvaluatorCoverage, CostUnavailable, IndependentGroups]

  function SliceShortfall(s: Text): Shortfall { SliceGroups(s) }
  function AllShortfalls(plan: Plan): seq<Shortfall> { FIXED_SHORTFALLS + Map(SliceShortfall, plan.criticalSlices) }

  lemma ShortfallsListed(plan: Plan, phase: Phase, candidate: Replay, control: Replay, m: Metrics, paired: seq<Replayed>)
    requires forall x :: x in candidate.reasons || x in control.reasons ==> !x.SliceGroups?
    requires forall r :: r in candidate.rows || r in control.rows ==> r.reason.Some? ==> !r.reason.value.SliceGroups?
    ensures forall x :: x in Shortfalls(plan, phase, candidate, control, m, paired) ==> x in AllShortfalls(plan)
  {
    GatherMembers(candidate.rows, ReasonOf);
    GatherMembers(control.rows, ReasonOf);
    GatherMembers(plan.criticalSlices, SliceShort(plan, paired));
    hide CoverageShort, CapacityRequired, SliceGroupCount;
    forall x | x in Shortfalls(plan, phase, candidate, control, m, paired) ensures x in AllShortfalls(plan) {
      if x.SliceGroups? {
        assert x in Gather(plan.criticalSlices, SliceShort(plan, paired));
        var s :| s in plan.criticalSlices && x in SliceShort(plan, paired)(s);
        var i :| 0 <= i < |plan.criticalSlices| && plan.criticalSlices[i] == s;
        assert SliceShortfall(s) == x && Map(SliceShortfall, plan.criticalSlices)[i] == SliceShortfall(s);
      } else {
        FixedListed(x);
      }
    }
  }

  lemma FixedListed(x: Shortfall)
    requires !x.SliceGroups?
    ensures x in FIXED_SHORTFALLS
  {
    var f := FIXED_SHORTFALLS;
    assert f[0] == ProfileMissing && f[1] == RouteSignalMissing && f[2] == ExecutionAmbiguous && f[3] == EvaluatorAbstained
        && f[4] == EvidenceMissing && f[5] == EvidenceInvalid && f[6] == CapacityUnavailable && f[7] == EvaluatorCoverage
        && f[8] == CostUnavailable && f[9] == IndependentGroups;
  }

  /** The sorted texts of a set of reasons. */
  function Texts(w: Wording, xs: seq<Shortfall>): seq<Text> { SortStrings(Distinct(Map(w.reason, xs))) }

  lemma TextsWithin(w: Wording, xs: seq<Shortfall>, all: seq<Shortfall>)
    requires forall x :: x in xs ==> x in all
    ensures |Texts(w, xs)| <= |all| && (Texts(w, xs) == [] <==> xs == [])
  {
    var texts, bound := Map(w.reason, xs), Map(w.reason, all);
    KeysAre(texts, Itself);
    KeysDistinct(texts, Itself);
    SlicesOk(Distinct(texts));
    hide SortStrings, Keys;
    forall t | t in Distinct(texts) ensures t in bound {
      var u :| u in texts && Itself(u) == t;
      var i :| 0 <= i < |texts| && texts[i] == t;
      assert xs[i] in xs;
      var j :| 0 <= j < |all| && all[j] == xs[i];
      assert bound[j] == t;
    }
    DistinctWithin(Distinct(texts), bound);
    if xs != [] { assert texts[0] in texts && Itself(texts[0]) in Distinct(texts); }
  }

  // ----- gates

  function GateFor(w: Wording, id: GateId, m: Metric, threshold: real, atLeast: bool): Gate {
    Gate(w.gate(id), atLeast, threshold, m.value, m.evidence, Holds(atLeast, threshold, m.value))
  }

  function Counted(n: nat): Metric { Metric(Some(n as real), Measured) }
  function LowerBound(i: Option<Inference>): Metric { if i.None? then NoMetric() else Metric(Some(i.value.lo), Modeled) }

  function SliceGate(w: Wording, plan: Plan, paired: seq<Replayed>): Text -> Gate {
    s => GateFor(w, MinimumSliceGroups(s), Counted(SliceGroupCount(paired, s)), plan.gates.minimumSliceGroups as real, true)
  }

  /** The gates every candidate has. */
  function FixedGates(w: Wording, g: Gates, m: Metrics, i: Option<Inference>, groups: nat): seq<Gate> {
    [GateFor(w, PairedQuality, LowerBound(i), g.nonInferiorityMargin, true),
     GateFor(w, MinimumMeanScore, m.meanScore, g.minimumMeanScore, true),
     GateFor(w, MaximumFailureRate, m.failureRate, g.maximumFailureRate, false),
     GateFor(w, MaximumTtft, m.ttft, g.maximumTtft, false),
     GateFor(w, MaximumEndToEnd, m.endToEnd, g.maximumEndToEnd, false),
     GateFor(w, MaximumCost, m.cost, g.maximumCost, false),
     GateFor(w, MinimumCoverage, m.evidenceCoverage, g.minimumCoverage, true),
     GateFor(w, MinimumGroups, Counted(groups), g.minimumGroups as real, true)]
  }

  function SliceGates(w: Wording, plan: Plan, paired: seq<Replayed>): seq<Gate> {
    Map(SliceGate(w, plan, paired), SortStrings(plan.criticalSlices))
  }

  function CapacityGates(w: Wording, plan: Plan, phase: Phase, m: Metrics): seq<Gate> {
    if CapacityRequired(plan, phase) then [GateFor(w, MinimumCapacity, m.serviceCapacity, plan.gates.capacity.value, true)] else []
  }

  /** The gates of one candidate, in order. */
  function GatesFor(w: Wording, plan: Plan, phase: Phase, m: Metrics, i: Option<Inference>, paired: seq<Replayed>): seq<Gate> {
    FixedGates(w, plan.gates, m, i, |Keys(paired, GroupOf)|) + SliceGates(w, plan, paired) + CapacityGates(w, plan, phase, m)
  }

  lemma GateForOk(w: Wording, id: GateId, m: Metric, threshold: real, atLeast: bool)
    ensures MetricOk(m) ==> GateOk(GateFor(w, id, m, threshold, atLeast))
    ensures GateFor(w, id, m, threshold, atLeast).passed <==> Holds(atLeast, threshold, m.value)
  {
  }

  lemma FixedGatesOk(w: Wording, g: Gates, m: Metrics, i: Option<Inference>, groups: nat)
    requires MetricsOk(m)
    ensures var gs := FixedGates(w, g, m, i, groups); |gs| == 8 && forall k :: 0 <= k < 8 ==> GateOk(gs[k])
  {
    var gs := FixedGates(w, g, m, i, groups);
    GateForOk(w, PairedQuality, LowerBound(i), g.nonInferiorityMargin, true);
    GateForOk(w, MinimumMeanScore, m.meanScore, g.minimumMeanScore, true);
    GateForOk(w, MaximumFailureRate, m.failureRate, g.maximumFailureRate, false);
    GateForOk(w, MaximumTtft, m.ttft, g.maximumTtft, false);
    GateForOk(w, MaximumEndToEnd, m.endToEnd, g.maximumEndToEnd, false);
    GateForOk(w, MaximumCost, m.cost, g.maximumCost, false);
    GateForOk(w, MinimumCoverage, m.evidenceCoverage, g.minimumCoverage, true);
    GateForOk(w, MinimumGroups, Counted(groups), g.minimumGroups as real, true);
    hide GateFor, GateOk;
    assert GateOk(gs[0]) && GateOk(gs[1]) && GateOk(gs[2]) && GateOk(gs[3]) && GateOk(gs[4]) && GateOk(gs[5]) && GateOk(gs[6]) && GateOk(gs[7]);
  }

  lemma SliceGateOk(w: Wording, plan: Plan, paired: seq<Replayed>, s: Text)
    ensures var g := SliceGate(w, plan, paired)(s);
            GateOk(g) && (g.passed ==> SliceGroupCount(paired, s) >= plan.gates.minimumSliceGroups)
  {
    hide SliceGroupCount;
    GateForOk(w, MinimumSliceGroups(s), Counted(SliceGroupCount(paired, s)), plan.gates.minimumSliceGroups as real, true);
  }

  lemma SliceGateAt(w: Wording, plan: Plan, paired: seq<Replayed>, k: nat)
    requires k < |SortStrings(plan.criticalSlices)|
    ensures k < |SliceGates(w, plan, paired)|
    ensures SliceGates(w, plan, paired)[k] == SliceGate(w, plan, paired)(SortStrings(plan.criticalSlices)[k])
  {
  }

  lemma SliceGatesOk(w: Wording, plan: Plan, paired: seq<Replayed>)
    ensures var gs := SliceGates(w, plan, paired);
            |gs| == |plan.criticalSlices| && forall k :: 0 <= k < |gs| ==> GateOk(gs[k])
  {
    SortStringsSize(plan.criticalSlices);
    var gs, sorted := SliceGates(w, plan, paired), SortStrings(plan.criticalSlices);
    assert |gs| == |sorted|;
    hide SortStrings, SliceGates, SliceGate, GateOk;
    forall k | 0 <= k < |gs| ensures GateOk(gs[k]) {
      SliceGateAt(w, plan, paired, k);
      SliceGateOk(w, plan, paired, sorted[k]);
    }
  }

  lemma SliceGatesPass(w: Wording, plan: Plan, paired: seq<Replayed>, s: Text)
    requires NoDuplicates(plan.criticalSlices) && AllPass(SliceGates(w, plan, paired)) && s in plan.criticalSlices
    ensures SliceGroupCount(paired, s) >= plan.gates.minimumSliceGroups
  {
    SlicesOk(plan.criticalSlices);
    var sorted := SortStrings(plan.criticalSlices);
    hide SortStrings, SliceGates, SliceGate, SliceGroupCount;
    var k :| 0 <= k < |sorted| && sorted[k] == s;
    SliceGateAt(w, plan, paired, k);
    SliceGateOk(w, plan, paired, s);
  }

  lemma AllOk(a: seq<Gate>, b: seq<Gate>, c: seq<Gate>)
    requires forall k :: 0 <= k < |a| ==> GateOk(a[k])
    requires forall k :: 0 <= k < |b| ==> GateOk(b[k])
    requires forall k :: 0 <= k < |c| ==> GateOk(c[k])
    ensures forall k :: 0 <= k < |a + b + c| ==> GateOk((a + b + c)[k])
  {
    hide GateOk;
  }

  lemma GatesOk(w: Wording, plan: Plan, phase: Phase, m: Metrics, i: Option<Inference>, paired: seq<Replayed>)
    requires MetricsOk(m) && NoDuplicates(plan.criticalSlices)
    ensures var gs := GatesFor(w, plan, phase, m, i, paired);
            |gs| <= 9 + |plan.criticalSlices| && forall k :: 0 <= k < |gs| ==> GateOk(gs[k])
  {
    var groups := |Keys(paired, GroupOf)|;
    hide FixedGates, SliceGates, CapacityGates, GateOk, MetricsOk, Keys;
    FixedGatesOk(w, plan.gates, m, i, groups);
    SliceGatesOk(w, plan, paired);
    CapacityGatesOk(w, plan, phase, m);
    AllOk(FixedGates(w, plan.gates, m, i, groups), SliceGates(w, plan, paired), CapacityGates(w, plan, phase, m));
  }

  lemma CapacityGatesOk(w: Wording, plan: Plan, phase: Phase, m: Metrics)
    requires MetricsOk(m)
    ensures var gs := CapacityGates(w, plan, phase, m); |gs| <= 1 && forall k :: 0 <= k < |gs| ==> GateOk(gs[k])
  {
    if CapacityRequired(plan, phase) { GateForOk(w, MinimumCapacity, m.serviceCapacity, plan.gates.capacity.value, true); }
  }

  lemma AllPassParts(a: seq<Gate>, b: seq<Gate>, c: seq<Gate>)
    requires AllPass(a + b + c)
    ensures AllPass(a) && AllPass(b)
  {
    var gs := a + b + c;
    forall k | 0 <= k < |a| ensures a[k].passed { assert gs[k] == a[k]; }
    forall k | 0 <= k < |b| ensures b[k].passed { assert gs[|a| + k] == b[k]; }
  }

  lemma FixedPass(w: Wording, g: Gates, m: Metrics, i: Option<Inference>, groups: nat)
    requires AllPass(FixedGates(w, g, m, i, groups))
    ensures i.Some? && i.value.lo >= g.nonInferiorityMargin && groups >= g.minimumGroups
    ensures m.meanScore.value.Some? && m.meanScore.value.value >= g.minimumMeanScore
    ensures m.failureRate.value.Some? && m.failureRate.value.value <= g.maximumFailureRate
    ensures m.ttft.value.Some? && m.ttft.value.value <= g.maximumTtft
    ensures m.endToEnd.value.Some? && m.endToEnd.value.value <= g.maximumEndToEnd
    ensures m.cost.value.Some? && m.cost.value.value <= g.maximumCost
    ensures m.evidenceCoverage.value.Some? && m.evidenceCoverage.value.value >= g.minimumCoverage
  {
    var gs := FixedGates(w, g, m, i, groups);
    assert gs[0].passed && gs[1].passed && gs[2].passed && gs[3].passed && gs[4].passed && gs[5].passed && gs[6].passed && gs[7].passed;
  }

  /** A candidate all of whose gates pass really meets every limit of the protocol. */
  lemma PassMeans(w: Wording, plan: Plan, phase: Phase, m: Metrics, i: Option<Inference>, paired: seq<Replayed>)
    requires NoDuplicates(plan.criticalSlices) && AllPass(GatesFor(w, plan, phase, m, i, paired))
    ensures var g := plan.gates;
            && i.Some? && i.value.lo >= g.nonInferiorityMargin
            && m.meanScore.value.Some? && m.meanScore.value.value >= g.minimumMeanScore
            && m.failureRate.value.Some? && m.failureRate.value.value <= g.maximumFailureRate
            && m.ttft.value.Some? && m.ttft.value.value <= g.maximumTtft
            && m.endToEnd.value.Some? && m.endToEnd.value.value <= g.maximumEndToEnd
            && m.cost.value.Some? && m.cost.value.value <= g.maximumCost
            && m.evidenceCoverage.value.Some? && m.evidenceCoverage.value.value >= g.minimumCoverage
            && |Keys(paired, GroupOf)| >= g.minimumGroups
            && (forall s :: s in plan.criticalSlices ==> SliceGroupCount(paired, s) >= g.minimumSliceGroups)
  {
    var groups := |Keys(paired, GroupOf)|;
    hide FixedGates, SliceGates, CapacityGates, AllPass, Keys, SliceGroupCount;
    AllPassParts(FixedGates(w, plan.gates, m, i, groups), SliceGates(w, plan, paired), CapacityGates(w, plan, phase, m));
    FixedPass(w, plan.gates, m, i, groups);
    forall s | s in plan.criticalSlices ensures SliceGroupCount(paired, s) >= plan.gates.minimumSliceGroups {
      SliceGatesPass(w, plan, paired, s);
    }
  }

  // ----- the candidate

  function CoverageFor(plan: Plan, evidence: seq<Replayed>, candidate: seq<Replayed>, paired: seq<Replayed>, i: Option<Inference>): Coverage {
    Coverage(
      |Keys(paired, CaseOf)|, |paired|, |Keys(paired, GroupOf)|, if i.Some? then i.value.mass else CaseMass(paired),
      Map(SliceCountBy(paired), SortStrings(plan.criticalSlices)), |Gather(candidate, FailedRow)|,
      |Gather(evidence, UnscoredRow)|, CoverageValue(evidence))
  }

  lemma CoverageIsOk(plan: Plan, evidence: seq<Replayed>, candidate: seq<Replayed>, paired: seq<Replayed>, i: Option<Inference>, es: seq<Execution>)
    requires PlanOk(plan) && RowsOk(paired, es) && Facts(es) && (i.Some? ==> i.value.mass >= 0.0)
    ensures CoverageOk(CoverageFor(plan, evidence, candidate, paired, i))
  {
    CountsNest(paired, es);
    CoverageWithin(evidence);
    DistinctSlices(plan.criticalSlices, paired);
    forall r | r in paired ensures r.row.weight > 0.0 { assert ReplayedOk(r); }
    CaseMassNonNegative(paired);
    SlicesOk(plan.criticalSlices);
    hide RowsOk, Facts, CaseMass, Keys, SortStrings, CoverageValue, SliceGroupCount;
  }

  predicate NoSliceReasons(r: Replay) {
    && (forall i :: 0 <= i < |r.reasons| ==> !r.reasons[i].SliceGroups?)
    && forall i :: 0 <= i < |r.rows| ==> r.rows[i].reason.Some? ==> !r.rows[i].reason.value.SliceGroups?
  }

  /** What one candidate result is, beyond being acceptable to the contract. */
  ghost predicate Assessed(
      w: Wording, plan: Plan, phase: Phase, policy: Policy, candidate: Replay, control: Replay, evidence: seq<Replayed>, c: Candidate)
  {
    var paired := Paired(candidate.rows, control.rows);
    var short := Shortfalls(plan, phase, candidate, control, c.metrics, paired);
    && c.policy == policy && c.replay == Map(RowOf, candidate.rows) && MetricsMean(w, candidate.rows, c.metrics)
    && c.insufficiency == Texts(w, short) && c.gates == GatesFor(w, plan, phase, c.metrics, c.inference, paired)
    && (c.inference.Some? <==> short == []) && (c.inference.Some? ==> InferenceIs(plan, paired, control.rows, c.inference.value))
    && c.coverage == CoverageFor(plan, evidence, candidate.rows, paired, c.inference)
    && c.status == (if short != [] then Insufficient else if AllPass(c.gates) then Pass else Hold)
  }

  lemma {:induction false} RejectionCount(w: Wording, gs: seq<Gate>)
    ensures |Gather(gs, FailedOf(w))| <= |gs|
  {
    AtMostOne(gs, FailedOf(w));
  }

  lemma ReasonsFew(w: Wording, plan: Plan, phase: Phase, candidate: Replay, control: Replay, m: Metrics, paired: seq<Replayed>)
    requires PlanOk(plan) && NoSliceReasons(candidate) && NoSliceReasons(control)
    ensures var short := Shortfalls(plan, phase, candidate, control, m, paired);
            |Texts(w, short)| <= 10 + MAX_CRITICAL_SLICES && (Texts(w, short) == [] <==> short == [])
  {
    forall x | x in candidate.reasons || x in control.reasons ensures !x.SliceGroups? {}
    forall r | (r in candidate.rows || r in control.rows) && r.reason.Some? ensures !r.reason.value.SliceGroups? {}
    ShortfallsListed(plan, phase, candidate, control, m, paired);
    TextsWithin(w, Shortfalls(plan, phase, candidate, control, m, paired), AllShortfalls(plan));
    hide Shortfalls, Texts;
    assert |AllShortfalls(plan)| == 10 + |plan.criticalSlices|;
  }

  lemma RowsContract(rows: seq<Replayed>, es: seq<Execution>)
    requires RowsOk(rows, es)
    ensures forall i :: 0 <= i < |Map(RowOf, rows)| ==> RowOk(Map(RowOf, rows)[i])
  {
    forall i | 0 <= i < |rows| ensures RowOk(Map(RowOf, rows)[i]) {
      assert Map(RowOf, rows)[i] == RowOf(rows[i]) && rows[i] in rows && ReplayedOk(rows[i]);
    }
  }

  lemma RejectionsFew(w: Wording, c: Candidate)
    requires |c.insufficiency| <= 10 + MAX_CRITICAL_SLICES && |c.gates| <= 9 + MAX_CRITICAL_SLICES
    requires c.rejection == ExpectedRejections(w, c)
    ensures |c.rejection| <= MAX_REASONS
  {
    RejectionCount(w, c.gates);
    SortStringsSize(c.insufficiency + Gather(c.gates, FailedOf(w)));
  }

  /** Assembling the parts satisfies every refinement of the candidate schema. */
  lemma CandidateIsOk(w: Wording, plan: Plan, phase: Phase, policy: Policy, candidate: Replay, control: Replay, evidence: seq<Replayed>, c: Candidate, es: seq<Execution>)
    requires PlanOk(plan) && PolicyOk(w, policy) && RowsOk(candidate.rows, es) && Facts(es)
    requires NoSliceReasons(candidate) && NoSliceReasons(control)
    requires MetricsOk(c.metrics) && c.metrics.meanScore.evidence == ExpectedScoreClass(c.replay)
    requires c.metrics.evidenceCoverage.value.Some? ==> c.metrics.evidenceCoverage.value.value == CoverageValue(evidence)
    requires Assessed(w, plan, phase, policy, candidate, control, evidence, c)
    requires c.policyDigest == policy.digest && c.rejection == ExpectedRejections(w, c)
    ensures CandidateOk(w, c)
  {
    var paired := Paired(candidate.rows, control.rows);
    hide Shortfalls, GatesFor, MetricsMean, Facts, Texts, RowOk, GateOk, MetricsOk, PolicyOk, ExpectedScoreClass, ExpectedRejections;
    hide B.Valid, B.Bootstrap, Effects, Keys, Paired, CoverageValue, NoSliceReasons, RowsOk, CoverageOk, InferenceOk;
    RowsContract(candidate.rows, es);
    PairedOk(candidate.rows, control.rows, es);
    if c.inference.Some? { InferenceMass(c.inference.value); }
    CoverageIsOk(plan, evidence, candidate.rows, paired, c.inference, es);
    CoverageCounts(plan, evidence, candidate.rows, paired, c.inference);
    hide CoverageFor;
    GatesOk(w, plan, phase, c.metrics, c.inference, paired);
    ReasonsFew(w, plan, phase, candidate, control, c.metrics, paired);
    RejectionsFew(w, c);
    hide PlanOk;
  }

  lemma InferenceMass(i: Inference)
    requires InferenceOk(i)
    ensures i.mass >= 0.0
  {
  }

  lemma SortStringsSize(xs: seq<Text>)
    ensures |SortStrings(xs)| == |xs|
  {
    SortPermutes(xs, ByKey(Itself));
  }

  lemma CoverageCounts(plan: Plan, evidence: seq<Replayed>, candidate: seq<Replayed>, paired: seq<Replayed>, i: Option<Inference>)
    ensures var c := CoverageFor(plan, evidence, candidate, paired, i);
            && c.caseCount == |Keys(paired, CaseOf)| && c.replicateCount == |paired| && c.groupCount == |Keys(paired, GroupOf)|
            && c.evidenceCoverage == CoverageValue(evidence) && (i.Some? ==> c.mass == i.value.mass)
  {
  }
}
