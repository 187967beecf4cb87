/** Weighted quantile, interpolated quantile, and sums over reals. */
module Statistics {
  import opened CodeUnits
  import opened Wrappers
  import opened Sorting
  import opened Grouping

  // ----- sums of reals

  function Total<T>(xs: seq<T>, f: T -> real): real {
    if xs == [] then 0.0 else Total(xs[..|xs| - 1], f) + f(xs[|xs| - 1])
  }

  lemma {:induction false} TotalAppend<T>(xs: seq<T>, ys: seq<T>, f: T -> real)
    ensures Total(xs + ys, f) == Total(xs, f) + Total(ys, f)
  {
    if ys == [] {
      assert xs + ys == xs;
    } else {
      var n := |ys| - 1;
      assert (xs + ys)[..|xs| + n] == xs + ys[..n];
      TotalAppend(xs, ys[..n], f);
    }
  }

  lemma TotalOne<T>(x: T, f: T -> real)
    ensures Total([x], f) == f(x)
  {
    assert [x][..0] == [];
    assert Total([], f) == 0.0;
  }

  lemma {:induction false} TotalPermutes<T(!new)>(xs: seq<T>, ys: seq<T>, f: T -> real)
    requires multiset(xs) == multiset(ys)
    ensures Total(xs, f) == Total(ys, f)
    decreases |xs|
  {
    SameSize(xs, ys);
    if xs != [] {
      var n := |xs| - 1;
      DropLast(xs);
      assert xs[n] in multiset(ys);
      var i :| 0 <= i < |ys| && ys[i] == xs[n];
      TakeOut(ys, i);
      TotalPermutes(xs[..n], ys[..i] + ys[i + 1..], f);
      TotalAppend(ys[..i], ys[i + 1..], f);
      TotalAppend(ys[..i] + [ys[i]], ys[i + 1..], f);
      TotalAppend(ys[..i], [ys[i]], f);
      TotalOne(ys[i], f);
    }
  }

  /** Pointwise order gives order of totals. */
  lemma {:induction false} TotalMonotone<T(!new)>(xs: seq<T>, f: T -> real, g: T -> real)
    requires forall x :: x in xs ==> f(x) <= g(x)
    ensures Total(xs, f) <= Total(xs, g)
  {
    if xs != [] {
      DropLast(xs);
      assert xs[|xs| - 1] in xs;
      TotalMonotone(xs[..|xs| - 1], f, g);
    }
  }

  lemma {:induction false} TotalScale<T>(xs: seq<T>, f: T -> real, g: T -> real, c: real)
    requires forall x :: g(x) == c * f(x)
    ensures Total(xs, g) == c * Total(xs, f)
  {
    if xs != [] { TotalScale(xs[..|xs| - 1], f, g, c); }
  }

  // ----- weighted quantile

  datatype Weighted = Weighted(value: real, weight: real, identity: Text)

  function WeightOf(e: Weighted): real { e.weight }

  /** Weight of the entries not above v. */
  function AtMost(v: real): Weighted -> real { (e: Weighted) => if e.value <= v then e.weight else 0.0 }

  function Mass(xs: seq<Weighted>): real { Total(xs, WeightOf) }
  function CumulativeMass(xs: seq<Weighted>, v: real): real { Total(xs, AtMost(v)) }

  predicate Positive(xs: seq<Weighted>) { forall i :: 0 <= i < |xs| ==> xs[i].weight > 0.0 }

  /** The inverse cumulative distribution: the least value of the input whose cumulative weight reaches p times the mass. */
  ghost predicate IsQuantile(xs: seq<Weighted>, p: real, r: real) {
    && (exists e :: e in xs && e.value == r)
    && CumulativeMass(xs, r) >= p * Mass(xs)
    && forall e :: e in xs && e.value < r ==> CumulativeMass(xs, e.value) < p * Mass(xs)
  }

  /** Value, then identity. */
  function ValueOrder(): (Weighted, Weighted) -> bool {
    (a: Weighted, b: Weighted) => a.value < b.value || (a.value == b.value && Compare(a.identity, b.identity) <= 0)
  }

  lemma ValuePreorder()
    ensures Preorder(ValueOrder())
  {
    var le := ValueOrder();
    forall a, b ensures le(a, b) || le(b, a) { CompareAntisymmetric(a.identity, b.identity); }
    forall a, b, c | le(a, b) && le(b, c) ensures le(a, c) {
      if Compare(a.identity, b.identity) <= 0 && Compare(b.identity, c.identity) <= 0 {
        LeTransitive(a.identity, b.identity, c.identity);
      }
    }
  }

  lemma {:induction false} MassPositive(xs: seq<Weighted>)
    requires Positive(xs)
    ensures Mass(xs) >= 0.0
  {
    if xs != [] { MassPositive(xs[..|xs| - 1]); }
  }

  /** Beyond a sorted prefix nothing is at most a smaller value. */
  lemma {:induction false} TailAbove(xs: seq<Weighted>, v: real)
    requires forall i :: 0 <= i < |xs| ==> xs[i].value > v
    ensures CumulativeMass(xs, v) == 0.0
  {
    if xs != [] { TailAbove(xs[..|xs| - 1], v); }
  }

  lemma CumulativeBelow(xs: seq<Weighted>, v: real)
    requires Positive(xs)
    ensures CumulativeMass(xs, v) <= Mass(xs)
  {
    forall x | x in xs ensures AtMost(v)(x) <= WeightOf(x) {
      var i :| 0 <= i < |xs| && xs[i] == x;
    }
    TotalMonotone(xs, AtMost(v), WeightOf);
  }

  lemma CumulativePermutes(xs: seq<Weighted>, ys: seq<Weighted>, v: real)
    requires multiset(xs) == multiset(ys)
    ensures CumulativeMass(xs, v) == CumulativeMass(ys, v) && Mass(xs) == Mass(ys)
  {
    TotalPermutes(xs, ys, AtMost(v));
    TotalPermutes(xs, ys, WeightOf);
  }

  lemma {:induction false} PrefixWithin(xs: seq<Weighted>, v: real)
    requires forall i :: 0 <= i < |xs| ==> xs[i].value <= v
    ensures CumulativeMass(xs, v) == Mass(xs)
  {
    if xs != [] { PrefixWithin(xs[..|xs| - 1], v); }
  }

  lemma SortedValues(xs: seq<Weighted>)
    ensures var sorted := Sort(xs, ValueOrder());
            && multiset(sorted) == multiset(xs)
            && forall j, k :: 0 <= j < k < |sorted| ==> sorted[j].value <= sorted[k].value
  {
    var sorted := Sort(xs, ValueOrder());
    hide Sort;
    ValuePreorder();
    SortSorts(xs, ValueOrder());
    SortPermutes(xs, ValueOrder());
    forall j, k | 0 <= j < k < |sorted| ensures sorted[j].value <= sorted[k].value {
      assert ValueOrder()(sorted[j], sorted[k]);
    }
  }

  predicate AscendingValues(xs: seq<Weighted>) {
    forall j, k :: 0 <= j < k < |xs| ==> xs[j].value <= xs[k].value
  }

  /** Everything up to position i is at most its value. */
  lemma PrefixReaches(sorted: seq<Weighted>, i: nat)
    requires AscendingValues(sorted) && Positive(sorted) && i < |sorted|
    ensures CumulativeMass(sorted, sorted[i].value) >= Mass(sorted[..i + 1])
  {
    var head, tail, r := sorted[..i + 1], sorted[i + 1..], sorted[i].value;
    assert sorted == head + tail;
    TotalAppend(head, tail, AtMost(r));
    PrefixWithin(head, r);
    CumulativeNonNegative(tail, r);
  }

  /** A value below that at position i is reached only within the prefix. */
  lemma PrefixHolds(sorted: seq<Weighted>, i: nat, v: real)
    requires AscendingValues(sorted) && Positive(sorted) && i < |sorted| && v < sorted[i].value
    ensures CumulativeMass(sorted, v) <= Mass(sorted[..i])
  {
    var front, back := sorted[..i], sorted[i..];
    assert sorted == front + back;
    TotalAppend(front, back, AtMost(v));
    forall k | 0 <= k < |back| ensures back[k].value > v { assert back[k] == sorted[i + k]; }
    TailAbove(back, v);
    CumulativeBelow(front, v);
  }

  /** The first entry of a sorted sequence whose prefix weight reaches the target is the quantile. */
  lemma FirstReaching(xs: seq<Weighted>, sorted: seq<Weighted>, p: real, i: nat)
    requires Positive(xs) && AscendingValues(sorted) && multiset(sorted) == multiset(xs) && i < |sorted|
    requires Mass(sorted[..i + 1]) >= p * Mass(xs)
    requires i == 0 || Mass(sorted[..i]) < p * Mass(xs)
    ensures IsQuantile(xs, p, sorted[i].value)
  {
    hide Positive, CumulativeMass, Mass;
    var target := p * Mass(xs);
    SameMembers(sorted, xs);
    PositivePermutes(xs, sorted);
    assert sorted[i] in sorted;
    CumulativePermutes(sorted, xs, sorted[i].value);
    PrefixReaches(sorted, i);
    forall e | e in xs && e.value < sorted[i].value ensures CumulativeMass(xs, e.value) < target {
      var j :| 0 <= j < |sorted| && sorted[j] == e;
      assert j < i;
      CumulativePermutes(sorted, xs, e.value);
      PrefixHolds(sorted, i, e.value);
    }
  }

  lemma PositivePermutes(xs: seq<Weighted>, ys: seq<Weighted>)
    requires Positive(xs) && multiset(xs) == multiset(ys)
    ensures Positive(ys)
  {
    SameMembers(xs, ys);
    forall i | 0 <= i < |ys| ensures ys[i].weight > 0.0 {
      assert ys[i] in xs;
    }
  }

  lemma {:induction false} CumulativeNonNegative(xs: seq<Weighted>, v: real)
    requires Positive(xs)
    ensures CumulativeMass(xs, v) >= 0.0
  {
    if xs != [] { CumulativeNonNegative(xs[..|xs| - 1], v); }
  }

  datatype StatisticsError = BadProbability | BadWeight

  /** The checked summation of the weights. */
  method SumWeights(sorted: seq<Weighted>) returns (r: Result<real, StatisticsError>)
    ensures r == if Positive(sorted) then Ok(Mass(sorted)) else Err(BadWeight)
  {
    var mass := 0.0;
    for i := 0 to |sorted|
      invariant mass == Mass(sorted[..i]) && Positive(sorted[..i])
    {
      if sorted[i].weight <= 0.0 { return Err(BadWeight); }
      assert sorted[..i + 1][..i] == sorted[..i];
      mass := mass + sorted[i].weight;
    }
    assert sorted[..|sorted|] == sorted;
    return Ok(mass);
  }

  /** The position at which the running weight reaches the target: the last one, if none before it does. */
  method Reach(sorted: seq<Weighted>, target: real) returns (k: nat)
    requires sorted != [] && target <= Mass(sorted)
    ensures k < |sorted| && Mass(sorted[..k + 1]) >= target && (k == 0 || Mass(sorted[..k]) < target)
  {
    var cumulative := 0.0;
    k := 0;
    while k < |sorted| - 1
      invariant 0 <= k < |sorted|
      invariant cumulative == Mass(sorted[..k]) && (k == 0 || cumulative < target)
    {
      assert sorted[..k + 1][..k] == sorted[..k];
      cumulative := cumulative + sorted[k].weight;
      if cumulative >= target { return; }
      k := k + 1;
    }
    assert sorted[..k + 1] == sorted;
  }

  /** The search over the sorted entries, given their mass. */
  method QuantileAt(values: seq<Weighted>, sorted: seq<Weighted>, probability: real, mass: real) returns (v: real)
    requires values != [] && Positive(values) && multiset(sorted) == multiset(values) && AscendingValues(sorted)
    requires mass == Mass(values) && 0.0 <= probability <= 1.0
    ensures IsQuantile(values, probability, v)
  {
    hide IsQuantile, Mass, Positive, AscendingValues;
    SameSize(sorted, values);
    CumulativePermutes(sorted, values, 0.0);
    MassPositive(values);
    Shrink(probability, mass);
    var k := Reach(sorted, probability * mass);
    FirstReaching(values, sorted, probability, k);
    return sorted[k].value;
  }

  /** weightedQuantile: no value for no entries; over reals the last entry is reached at the latest. */
  method WeightedQuantile(values: seq<Weighted>, probability: real) returns (r: Result<Option<real>, StatisticsError>)
    ensures values == [] ==> r == Ok(None)
    ensures values != [] ==>
              match r
              case Err(BadProbability) => probability < 0.0 || probability > 1.0
              case Err(BadWeight) => 0.0 <= probability <= 1.0 && !Positive(values)
              case Ok(None) => false
              case Ok(Some(v)) => 0.0 <= probability <= 1.0 && Positive(values) && IsQuantile(values, probability, v)
  {
    if |values| == 0 { return Ok(None); }
    if probability < 0.0 || probability > 1.0 { return Err(BadProbability); }
    var sorted := Sort(values, ValueOrder());
    SortedValues(values);
    hide Sort, IsQuantile, Mass;
    var mass := SumWeights(sorted);
    if mass.Err? {
      if Positive(values) { PositivePermutes(values, sorted); }
      return Err(BadWeight);
    }
    PositivePermutes(sorted, values);
    CumulativePermutes(sorted, values, 0.0);
    var v := QuantileAt(values, sorted, probability, mass.value);
    return Ok(Some(v));
  }

  lemma Shrink(p: real, m: real)
    requires 0.0 <= p <= 1.0 && m >= 0.0
    ensures p * m <= m
  {
  }

  /** The quantile is monotone in p and does not depend on the order of the entries; in particular it is unique. */
  lemma QuantileMonotone(xs: seq<Weighted>, ys: seq<Weighted>, p: real, q: real, r: real, s: real)
    requires multiset(xs) == multiset(ys) && Positive(xs) && p <= q
    requires IsQuantile(xs, p, r) && IsQuantile(ys, q, s)
    ensures r <= s
  {
    CumulativePermutes(xs, ys, s);
    SameMembers(xs, ys);
    MassPositive(xs);
    Ordered(p, q, Mass(xs));
    hide Mass, CumulativeMass;
    var e :| e in ys && e.value == s;
    assert e in xs && CumulativeMass(xs, e.value) >= p * Mass(xs);
  }

  lemma Ordered(p: real, q: real, m: real)
    requires p <= q && m >= 0.0
    ensures p * m <= q * m && m * p <= m * q
  {
  }

  // ----- interpolated quantile of a sorted sequence

  predicate Ascending(xs: seq<real>) { forall i, j :: 0 <= i < j < |xs| ==> xs[i] <= xs[j] }

  function Clamp(p: real): real { if p < 0.0 then 0.0 else if p > 1.0 then 1.0 else p }

  /** Linear interpolation between the two nearest ranks. */
  function AtRank(sorted: seq<real>, position: real): real
    requires 0.0 <= position <= (|sorted| - 1) as real
  {
    var lower := position.Floor;
    if position == lower as real then sorted[lower]
    else sorted[lower] + (sorted[lower + 1] - sorted[lower]) * (position - lower as real)
  }

  function Position(n: nat, p: real): real
    requires n > 0
  {
    (n - 1) as real * Clamp(p)
  }

  lemma PositionBounds(n: nat, p: real, q: real)
    requires n > 0 && p <= q
    ensures 0.0 <= Position(n, p) <= Position(n, q) <= (n - 1) as real
  {
    var k := (n - 1) as real;
    assert k >= 0.0 && 0.0 <= Clamp(p) <= Clamp(q) <= 1.0;
    Ordered(Clamp(p), Clamp(q), k);
    Ordered(Clamp(q), 1.0, k);
    Ordered(0.0, Clamp(p), k);
    assert k * 0.0 == 0.0 && k * 1.0 == k;
    hide Clamp;
    assert Position(n, p) == k * Clamp(p) && Position(n, q) == k * Clamp(q);
  }

  function QuantileFromSorted(sorted: seq<real>, p: real): real
    requires sorted != []
  {
    PositionBounds(|sorted|, p, p);
    if |sorted| == 1 then sorted[0] else AtRank(sorted, Position(|sorted|, p))
  }

  lemma Between(a: real, b: real, t: real, u: real)
    requires a <= b && 0.0 <= t <= u <= 1.0
    ensures a <= a + (b - a) * t <= a + (b - a) * u <= b
  {
    Ordered(t, u, b - a);
    Ordered(u, 1.0, b - a);
    Ordered(0.0, t, b - a);
  }

  lemma RankWithin(sorted: seq<real>, x: real)
    requires Ascending(sorted) && 0.0 <= x <= (|sorted| - 1) as real
    ensures var l := x.Floor; sorted[l] <= AtRank(sorted, x)
    ensures var l := x.Floor; x != l as real ==> l + 1 < |sorted| && AtRank(sorted, x) <= sorted[l + 1]
  {
    var l := x.Floor;
    if x != l as real { Between(sorted[l], sorted[l + 1], x - l as real, 1.0); }
  }

  lemma RankMonotone(sorted: seq<real>, x: real, y: real)
    requires Ascending(sorted) && 0.0 <= x <= y <= (|sorted| - 1) as real
    ensures AtRank(sorted, x) <= AtRank(sorted, y)
  {
    var l, m := x.Floor, y.Floor;
    RankWithin(sorted, x);
    RankWithin(sorted, y);
    if l == m {
      if y != m as real && x != l as real { Between(sorted[l], sorted[l + 1], x - l as real, y - l as real); }
    } else {
      assert l < m;
      if l + 1 < m { assert sorted[l + 1] <= sorted[m]; }
    }
  }

  /** The interpolated quantile is monotone in p and stays between the least and the greatest element. */
  lemma QuantileOrder(sorted: seq<real>, p: real, q: real)
    requires sorted != [] && Ascending(sorted) && p <= q
    ensures sorted[0] <= QuantileFromSorted(sorted, p) <= QuantileFromSorted(sorted, q) <= sorted[|sorted| - 1]
  {
    PositionBounds(|sorted|, p, q);
    var k := (|sorted| - 1) as real;
    RankMonotone(sorted, 0.0, Position(|sorted|, p));
    RankMonotone(sorted, Position(|sorted|, p), Position(|sorted|, q));
    RankMonotone(sorted, Position(|sorted|, q), k);
  }
}
