/** Replayed rows meet the row contract, and the operational metrics computed from them meet theirs. */
module AssessmentRows {
  import opened CodeUnits
  import opened Wrappers
  import opened Sorting
  import opened Grouping
  import opened EvidenceModel
  import opened AssessmentContract
  import opened AssessmentEngine
  import S = Statistics
  import B = Bootstrap

  // ----- rows

  lemma {:induction false} CostOk(costs: seq<AttemptCost>)
    requires forall i :: 0 <= i < |costs| ==> costs[i].NoCost? || costs[i].amount >= 0.0
    ensures MetricOk(TotalCost(costs)) && NonNegative(TotalCost(costs))
  {
    if costs != [] { CostOk(costs[..|costs| - 1]); }
  }

  lemma SlicesOk(slices: seq<Text>)
    requires NoDuplicates(slices)
    ensures NoDuplicates(SortStrings(slices)) && |SortStrings(slices)| == |slices|
    ensures forall s :: s in SortStrings(slices) <==> s in slices
  {
    SortPermutes(slices, ByKey(Itself));
    SortNoDuplicates(slices, ByKey(Itself));
    SameMembers(SortStrings(slices), slices);
  }

  lemma ScoreOk(e: Execution)
    requires ExecutionOk(e)
    ensures var s := ScoreOf(e);
            && (s.0.None? <==> s.1.Unavailable?) && (s.0.None? <==> s.2.Some?) && (s.0.Some? ==> 0.0 <= s.0.value <= 1.0)
            && (!Succeeded(e) ==> s.0.None? || (s.0 == Some(0.0) && s.1.Modeled?))
  {
  }

  /** What a replayed row satisfies beyond its contract. */
  predicate ReplayedOk(r: Replayed) {
    && RowOk(r.row) && (r.row.score.Some? ==> 0.0 <= r.row.score.value <= 1.0)
    && (r.row.score.None? <==> r.reason.Some?) && (r.row.cost.None? <==> r.costClass.Unavailable?)
    && !r.ttftClass.Unavailable? && !r.endClass.Unavailable? && r.row.caseId != [] && r.row.groupId != []
  }

  lemma DirectOk(e: Execution, cascade: bool)
    requires ExecutionOk(e)
    ensures ReplayedOk(Direct(e, cascade))
  {
    ScoreOk(e);
    CostOk(e.trace.costs);
    SlicesOk(e.trace.slices);
    hide ScoreOf, SortStrings, TotalCost;
  }

  lemma FallbackOk(primary: Execution, expert: Execution)
    requires ExecutionOk(primary) && ExecutionOk(expert) && primary.trace.profileId != expert.trace.profileId
    ensures ReplayedOk(Fallback(primary, expert))
  {
    ScoreOk(expert);
    CostOk(primary.trace.costs);
    CostOk(expert.trace.costs);
    SlicesOk(primary.trace.slices);
    hide ScoreOf, SortStrings, TotalCost;
  }

  /** A policy the engine replays: valid, and a cascade runs two different profiles. */
  predicate Replayable(p: PolicyBody) { PolicySemantics(p) && (p.kind.Cascade? ==> p.primary != p.expert) }

  /** All executions are as the join leaves them, and replicates of a case share their group. */
  ghost predicate Facts(es: seq<Execution>) {
    && (forall e :: e in es ==> ExecutionOk(e))
    && forall a, b :: a in es && b in es && a.trace.caseId == b.trace.caseId ==> a.trace.groupId == b.trace.groupId
  }

  lemma ReplayPairOk(policy: PolicyBody, index: Index, es: seq<Execution>, pair: PairId)
    requires Replayable(policy) && Facts(es) && Indexes(index, es)
    ensures var r := ReplayPair(policy, index, pair);
            r.Ok? ==> ReplayedOk(r.value) && r.value.row.caseId == pair.caseId && r.value.row.replicateId == pair.replicateId
                      && exists e :: e in es && e.trace.caseId == pair.caseId && e.trace.groupId == r.value.row.groupId
  {
    var r := ReplayPair(policy, index, pair);
    if r.Ok? {
      var a, b := Identity3(pair.caseId, pair.replicateId, policy.primary), Identity3(pair.caseId, pair.replicateId, policy.expert);
      var primary, expert := index[a], index[b];
      assert IdentityOf(primary) == a && IdentityOf(expert) == b && primary in es && expert in es;
      hide ExecutionOk, ReplayedOk;
      DirectOk(primary, false);
      DirectOk(primary, true);
      DirectOk(expert, false);
      DirectOk(expert, true);
      if policy.kind.Cascade? { FallbackOk(primary, expert); }
    }
  }

  function CaseOf(r: Replayed): Text { r.row.caseId }
  function GroupOf(r: Replayed): Text { r.row.groupId }

  /** Rows of one replay: each meets its contract, and rows of a case share their group. */
  ghost predicate RowsOk(rows: seq<Replayed>, es: seq<Execution>) {
    forall r :: r in rows ==> ReplayedOk(r) && exists e :: e in es && e.trace.caseId == CaseOf(r) && e.trace.groupId == GroupOf(r)
  }

  lemma ReplayOk(policy: PolicyBody, index: Index, es: seq<Execution>, pairs: seq<PairId>)
    requires Replayable(policy) && Facts(es) && Indexes(index, es)
    ensures RowsOk(ReplayOf(policy, index, pairs).rows, es)
    ensures |ReplayOf(policy, index, pairs).rows| <= |pairs|
  {
    var rows := ReplayOf(policy, index, pairs).rows;
    GatherMembers(pairs, RowsBy(policy, index));
    forall r | r in rows ensures ReplayedOk(r) && exists e :: e in es && e.trace.caseId == CaseOf(r) && e.trace.groupId == GroupOf(r) {
      var pair :| pair in pairs && r in RowsBy(policy, index)(pair);
      ReplayPairOk(policy, index, es, pair);
    }
    AtMostOne(pairs, RowsBy(policy, index));
  }

  lemma {:induction false} AtMostOne<A, B>(xs: seq<A>, f: A -> seq<B>)
    requires forall x :: |f(x)| <= 1
    ensures |Gather(xs, f)| <= |xs|
  {
    if xs != [] { AtMostOne(xs[..|xs| - 1], f); }
  }

  // ----- weighted means

  function Product(e: S.Weighted): real { e.value * e.weight }

  function Mean(ws: seq<S.Weighted>): real
    requires S.Mass(ws) != 0.0
  {
    S.Total(ws, Product) / S.Mass(ws)
  }

  lemma {:induction false} MassAboveZero(ws: seq<S.Weighted>)
    requires S.Positive(ws)
    ensures S.Mass(ws) >= 0.0 && (ws != [] ==> S.Mass(ws) > 0.0)
  {
    if ws != [] { MassAboveZero(ws[..|ws| - 1]); }
  }

  /** weightedMean */
  method WeightedMean(values: seq<S.Weighted>) returns (m: real)
    requires S.Positive(values) && values != []
    ensures S.Mass(values) > 0.0 && m == Mean(values)
  {
    MassAboveZero(values);
    var numerator, mass := 0.0, 0.0;
    for i := 0 to |values|
      invariant numerator == S.Total(values[..i], Product) && mass == S.Mass(values[..i])
    {
      assert values[..i + 1][..i] == values[..i];
      numerator, mass := numerator + values[i].value * values[i].weight, mass + values[i].weight;
    }
    assert values[..|values|] == values;
    return numerator / mass;
  }

  lemma Scaled(v: real, lo: real, hi: real, w: real)
    requires lo <= v <= hi && w >= 0.0
    ensures B.Within(lo, hi, v * w, w)
  {
  }

  lemma {:induction false} ProductBounds(ws: seq<S.Weighted>, lo: real, hi: real)
    requires S.Positive(ws) && forall i :: 0 <= i < |ws| ==> lo <= ws[i].value <= hi
    ensures B.Within(lo, hi, S.Total(ws, Product), S.Mass(ws))
  {
    if ws == [] {
      assert B.Within(lo, hi, 0.0, 0.0);
    } else {
      hide B.Within;
      var n := |ws| - 1;
      ProductBounds(ws[..n], lo, hi);
      Scaled(ws[n].value, lo, hi, ws[n].weight);
      B.Mediant(lo, hi, S.Total(ws[..n], Product), S.Mass(ws[..n]), Product(ws[n]), ws[n].weight);
    }
  }

  /** A weighted mean lies between any bounds on its values. */
  lemma MeanBetween(ws: seq<S.Weighted>, lo: real, hi: real)
    requires S.Positive(ws) && ws != [] && forall i :: 0 <= i < |ws| ==> lo <= ws[i].value <= hi
    ensures S.Mass(ws) > 0.0 && lo <= Mean(ws) <= hi
  {
    MassAboveZero(ws);
    ProductBounds(ws, lo, hi);
    hide S.Total, S.Mass, Product, B.Within;
    B.Quotient(lo, hi, S.Total(ws, Product), S.Mass(ws));
  }

  // ----- operational metrics

  /** Traffic weight shared among the replicates of a case. */
  function RowWeight(rows: seq<Replayed>, r: Replayed): real {
    var k := |Group(rows, CaseOf, r.row.caseId)|;
    if k == 0 then r.row.weight else r.row.weight / k as real
  }

  function WeighedBy(w: Wording, rows: seq<Replayed>, value: Replayed -> real): Replayed -> S.Weighted {
    (r: Replayed) => S.Weighted(value(r), RowWeight(rows, r), w.pair(r.row.caseId, r.row.replicateId))
  }

  function Weighed(w: Wording, rows: seq<Replayed>, value: Replayed -> real): seq<S.Weighted> {
    Map(WeighedBy(w, rows, value), rows)
  }

  function ScoreValue(r: Replayed): real { if r.row.score.Some? then r.row.score.value else 0.0 }
  function FailureValue(r: Replayed): real { if r.row.success then 0.0 else 1.0 }
  function TtftValue(r: Replayed): real { r.row.ttft }
  function EndValue(r: Replayed): real { r.row.endToEnd }
  function CostValue(r: Replayed): real { if r.row.cost.Some? then r.row.cost.value * 1000.0 else 0.0 }

  lemma QuotientPositive(a: real, k: nat)
    requires a > 0.0 && k > 0
    ensures a / k as real > 0.0
  {
    var q := a / k as real;
    assert q * k as real == a;
    if q <= 0.0 { NotPositive(q, k); }
  }

  lemma NotPositive(q: real, k: nat)
    requires q <= 0.0
    ensures q * k as real <= 0.0
  {
  }

  lemma WeighedPositive(w: Wording, rows: seq<Replayed>, value: Replayed -> real)
    requires forall i :: 0 <= i < |rows| ==> rows[i].row.weight > 0.0
    ensures var ws := Weighed(w, rows, value);
            S.Positive(ws) && |ws| == |rows| && forall i :: 0 <= i < |ws| ==> ws[i].value == value(rows[i])
  {
    var ws := Weighed(w, rows, value);
    forall i | 0 <= i < |ws| ensures ws[i].weight > 0.0 && ws[i].value == value(rows[i]) {
      assert ws[i] == WeighedBy(w, rows, value)(rows[i]);
      var k := |Group(rows, CaseOf, rows[i].row.caseId)|;
      if k > 0 { QuotientPositive(rows[i].row.weight, k); }
    }
  }

  function RowOf(r: Replayed): ReplayRow { r.row }
  function TtftClassOf(r: Replayed): EvidenceClass { r.ttftClass }
  function EndClassOf(r: Replayed): EvidenceClass { r.endClass }
  function CostClassOf(r: Replayed): EvidenceClass { r.costClass }
  function ScoreClass(r: Replayed): EvidenceClass { r.row.scoreClass }

  /** The class a metric reports: never unavailable. */
  function Reporting(c: EvidenceClass): EvidenceClass { if c.Measured? then Measured else if c.Reported? then Reported else Modeled }

  lemma {:induction false} WeakestAvailable(cs: seq<EvidenceClass>)
    requires Unavailable !in cs
    ensures !Weakest(cs).Unavailable?
  {
    if cs != [] {
      DropLast(cs);
      assert cs[|cs| - 1] in cs;
      WeakestAvailable(cs[..|cs| - 1]);
    }
  }

  predicate AllScored(rows: seq<Replayed>) { forall i :: 0 <= i < |rows| ==> rows[i].row.score.Some? }
  predicate AllCosted(rows: seq<Replayed>) { forall i :: 0 <= i < |rows| ==> rows[i].row.cost.Some? }

  lemma ScoreProvenance(rows: seq<Replayed>)
    requires forall r :: r in rows ==> ReplayedOk(r)
    ensures rows == [] || !AllScored(rows) ==> ExpectedScoreClass(Map(RowOf, rows)) == Unavailable
    ensures rows != [] && AllScored(rows) ==>
              && ExpectedScoreClass(Map(RowOf, rows)) == Reporting(Weakest(Map(ScoreClass, rows)))
  {
    var contract := Map(RowOf, rows);
    if rows != [] {
      if AllScored(rows) {
        forall r | r in contract ensures r.score.Some? {
          var i :| 0 <= i < |contract| && contract[i] == r;
          assert contract[i] == RowOf(rows[i]);
        }
        var classes := Map(ScoreClass, rows);
        assert Map(ScoreClassOf, contract) == classes by {
          forall i | 0 <= i < |rows| ensures Map(ScoreClassOf, contract)[i] == classes[i] {
            assert contract[i] == RowOf(rows[i]) && Map(ScoreClassOf, contract)[i] == ScoreClassOf(contract[i]);
          }
        }
        forall c | c in classes ensures c != Unavailable {
          var i :| 0 <= i < |classes| && classes[i] == c;
          assert rows[i] in rows && classes[i] == ScoreClass(rows[i]);
        }
        WeakestAvailable(classes);
      } else {
        var i :| 0 <= i < |rows| && rows[i].row.score.None?;
        assert contract[i] == RowOf(rows[i]) && contract[i] in contract;
      }
    }
  }

  /** What the metrics mean in terms of the rows. */
  ghost predicate MetricsMean(w: Wording, rows: seq<Replayed>, m: Metrics) {
    if rows == [] then m.meanScore.value.None? && m.failureRate.value.None? && m.ttft.value.None? && m.endToEnd.value.None? && m.cost.value.None?
    else
      && (forall value :: S.Mass(Weighed(w, rows, value)) > 0.0)
      && m.meanScore.value == (if AllScored(rows) then Some(Mean(Weighed(w, rows, ScoreValue))) else None)
      && m.failureRate.value == Some(Mean(Weighed(w, rows, FailureValue)))
      && m.cost.value == (if AllCosted(rows) then Some(Mean(Weighed(w, rows, CostValue))) else None)
      && m.ttft.value.Some? && S.IsQuantile(Weighed(w, rows, TtftValue), 0.95, m.ttft.value.value)
      && m.endToEnd.value.Some? && S.IsQuantile(Weighed(w, rows, EndValue), 0.95, m.endToEnd.value.value)
  }

  // ----- the metrics as computed

  function NoMetric(): Metric { Metric(None, Unavailable) }
  function Present(value: real, c: EvidenceClass): Metric { Metric(Some(value), Reporting(c)) }

  predicate AllReplayed(rows: seq<Replayed>) { forall i :: 0 <= i < |rows| ==> ReplayedOk(rows[i]) }

  method MeanOf(w: Wording, rows: seq<Replayed>, value: Replayed -> real) returns (m: real)
    requires AllReplayed(rows) && rows != []
    ensures S.Mass(Weighed(w, rows, value)) > 0.0 && m == Mean(Weighed(w, rows, value))
  {
    WeighedPositive(w, rows, value);
    m := WeightedMean(Weighed(w, rows, value));
  }

  method QuantileOf(w: Wording, rows: seq<Replayed>, value: Replayed -> real) returns (q: real)
    requires AllReplayed(rows) && rows != []
    ensures S.IsQuantile(Weighed(w, rows, value), 0.95, q)
  {
    WeighedPositive(w, rows, value);
    var r := S.WeightedQuantile(Weighed(w, rows, value), 0.95);
    return r.value.value;
  }

  lemma MeanWithin(w: Wording, rows: seq<Replayed>, value: Replayed -> real, lo: real, hi: real)
    requires AllReplayed(rows) && rows != [] && forall i :: 0 <= i < |rows| ==> lo <= value(rows[i]) <= hi
    ensures S.Mass(Weighed(w, rows, value)) > 0.0 && lo <= Mean(Weighed(w, rows, value)) <= hi
  {
    WeighedPositive(w, rows, value);
    MeanBetween(Weighed(w, rows, value), lo, hi);
  }

  lemma {:induction false} Largest(xs: seq<real>) returns (hi: real)
    ensures hi >= 0.0 && forall i :: 0 <= i < |xs| ==> xs[i] <= hi
  {
    hi := 0.0;
    if xs != [] {
      var n := |xs| - 1;
      var h := Largest(xs[..n]);
      hi := if xs[n] > h then xs[n] else h;
      assert forall i :: 0 <= i < n ==> xs[i] == xs[..n][i];
    }
  }

  lemma MeanNonNegative(w: Wording, rows: seq<Replayed>, value: Replayed -> real)
    requires AllReplayed(rows) && rows != [] && forall i :: 0 <= i < |rows| ==> value(rows[i]) >= 0.0
    ensures S.Mass(Weighed(w, rows, value)) > 0.0 && Mean(Weighed(w, rows, value)) >= 0.0
  {
    var hi := Largest(Map(value, rows));
    assert forall i :: 0 <= i < |rows| ==> Map(value, rows)[i] == value(rows[i]);
    MeanWithin(w, rows, value, 0.0, hi);
  }

  lemma QuantileNonNegative(w: Wording, rows: seq<Replayed>, value: Replayed -> real, q: real)
    requires AllReplayed(rows) && forall i :: 0 <= i < |rows| ==> value(rows[i]) >= 0.0
    requires S.IsQuantile(Weighed(w, rows, value), 0.95, q)
    ensures q >= 0.0
  {
    WeighedPositive(w, rows, value);
    var ws := Weighed(w, rows, value);
    hide S.CumulativeMass, S.Mass;
    var e :| e in ws && e.value == q;
    var i :| 0 <= i < |ws| && ws[i] == e;
  }

  method ScoreMetric(w: Wording, rows: seq<Replayed>) returns (m: Metric)
    requires AllReplayed(rows) && rows != []
    ensures S.Mass(Weighed(w, rows, ScoreValue)) > 0.0
    ensures m.value == if AllScored(rows) then Some(Mean(Weighed(w, rows, ScoreValue))) else None
    ensures MetricOk(m) && Probability(m) && m.evidence == ExpectedScoreClass(Map(RowOf, rows))
  {
    ScoreProvenance(rows);
    var v := MeanOf(w, rows, ScoreValue);
    if !AllScored(rows) { return NoMetric(); }
    MeanWithin(w, rows, ScoreValue, 0.0, 1.0);
    return Present(v, Weakest(Map(ScoreClass, rows)));
  }

  method FailureMetric(w: Wording, rows: seq<Replayed>) returns (m: Metric)
    requires AllReplayed(rows) && rows != []
    ensures S.Mass(Weighed(w, rows, FailureValue)) > 0.0
    ensures m.value == Some(Mean(Weighed(w, rows, FailureValue))) && MetricOk(m) && Probability(m)
  {
    var v := MeanOf(w, rows, FailureValue);
    MeanWithin(w, rows, FailureValue, 0.0, 1.0);
    return Metric(Some(v), if Weakest(Map(EndClassOf, rows)).Modeled? then Modeled else Measured);
  }

  method CostMetric(w: Wording, rows: seq<Replayed>) returns (m: Metric)
    requires AllReplayed(rows) && rows != []
    ensures S.Mass(Weighed(w, rows, CostValue)) > 0.0
    ensures m.value == if AllCosted(rows) then Some(Mean(Weighed(w, rows, CostValue))) else None
    ensures MetricOk(m) && NonNegative(m)
  {
    var v := MeanOf(w, rows, CostValue);
    if !AllCosted(rows) { return NoMetric(); }
    MeanNonNegative(w, rows, CostValue);
    return Present(v, Weakest(Map(CostClassOf, rows)));
  }

  method LatencyMetric(w: Wording, rows: seq<Replayed>, value: Replayed -> real, class_: EvidenceClass) returns (m: Metric)
    requires AllReplayed(rows) && rows != [] && forall i :: 0 <= i < |rows| ==> value(rows[i]) >= 0.0
    ensures m.value.Some? && S.IsQuantile(Weighed(w, rows, value), 0.95, m.value.value)
    ensures MetricOk(m) && NonNegative(m)
  {
    var q := QuantileOf(w, rows, value);
    QuantileNonNegative(w, rows, value, q);
    return Present(q, class_);
  }

  /** The metrics of some rows. */
  method RowMetrics(w: Wording, rows: seq<Replayed>, capacity: Metric, coverage: Metric) returns (m: Metrics)
    requires AllReplayed(rows) && rows != []
    requires MetricOk(capacity) && NonNegative(capacity) && MetricOk(coverage) && Probability(coverage)
    ensures MetricsOk(m) && m.serviceCapacity == capacity && m.evidenceCoverage == coverage
    ensures m.meanScore.evidence == ExpectedScoreClass(Map(RowOf, rows))
    ensures MetricsMean(w, rows, m)
  {
    hide S.IsQuantile, Mean, S.Mass, Weighed, Weakest, AllReplayed, AllScored, AllCosted, ExpectedScoreClass, TtftValue, EndValue;
    hide MetricOk, Probability, NonNegative;
    RowsNonNegative(rows);
    var meanScore := ScoreMetric(w, rows);
    var failureRate := FailureMetric(w, rows);
    var ttft := LatencyMetric(w, rows, TtftValue, Weakest(Map(TtftClassOf, rows)));
    var endToEnd := LatencyMetric(w, rows, EndValue, Weakest(Map(EndClassOf, rows)));
    var cost := CostMetric(w, rows);
    m := Metrics(meanScore, failureRate, ttft, endToEnd, cost, coverage, capacity);
    forall value ensures S.Mass(Weighed(w, rows, value)) > 0.0 { MassesPositive(w, rows, value); }
  }

  /** operationalMetrics */
  method OperationalMetrics(w: Wording, rows: seq<Replayed>, capacity: Metric, coverage: Metric) returns (m: Metrics)
    requires AllReplayed(rows) && MetricOk(capacity) && NonNegative(capacity) && MetricOk(coverage) && Probability(coverage)
    ensures MetricsOk(m) && m.serviceCapacity == capacity && m.evidenceCoverage == coverage
    ensures m.meanScore.evidence == ExpectedScoreClass(Map(RowOf, rows))
    ensures MetricsMean(w, rows, m)
  {
    hide S.IsQuantile, Mean, S.Mass, Weighed, AllReplayed, AllScored, AllCosted;
    if |rows| == 0 { return Metrics(NoMetric(), NoMetric(), NoMetric(), NoMetric(), NoMetric(), coverage, capacity); }
    m := RowMetrics(w, rows, capacity, coverage);
  }

  lemma RowsNonNegative(rows: seq<Replayed>)
    requires AllReplayed(rows)
    ensures forall i :: 0 <= i < |rows| ==> TtftValue(rows[i]) >= 0.0 && EndValue(rows[i]) >= 0.0
  {
  }

  lemma MassesPositive(w: Wording, rows: seq<Replayed>, value: Replayed -> real)
    requires AllReplayed(rows) && rows != []
    ensures S.Mass(Weighed(w, rows, value)) > 0.0
  {
    WeighedPositive(w, rows, value);
    MassAboveZero(Weighed(w, rows, value));
  }
}
