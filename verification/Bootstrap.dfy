/** The grouped percentile bootstrap with its deterministic generator. */
module Bootstrap {
  import opened CodeUnits
  import opened Wrappers
  import opened Sorting
  import opened Grouping
  import opened Statistics

  // ----- generator

  const WORDS: int := 0x1_0000_0000
  const STEP: int := 0x6d2b79f5

  /** A 32-bit word. */
  type Word = u: int | 0 <= u < 0x1_0000_0000

  function NextState(state: Word): Word { (state + STEP) % WORDS }

  /** The three scrambling steps: multiply, multiply and fold, fold. */
  function First(state: bv32): bv32 { (state ^ (state >> 15)) * (1 | state) }
  function Second(value: bv32): bv32 { (value + (value ^ (value >> 7)) * (61 | value)) ^ value }
  function Third(value: bv32): bv32 { value ^ (value >> 14) }

  function Output(state: Word): bv32 { Third(Second(First(state as bv32))) }

  /** The uint32 that a safe-integer seed stands for. */
  function SeedState(seed: int): Word { seed % WORDS }

  /** The state after k draws. */
  function After(state: Word, k: nat): Word { if k == 0 then state else NextState(After(state, k - 1)) }

  lemma {:induction false} AfterIs(state: Word, k: nat)
    ensures After(state, k) == (state + k * STEP) % WORDS
  {
    if k > 0 {
      AfterIs(state, k - 1);
      AddModulo(state + (k - 1) * STEP);
    }
  }

  lemma AddModulo(x: int)
    ensures (x % WORDS + STEP) % WORDS == (x + STEP) % WORDS
  {
    assert x == x / WORDS * WORDS + x % WORDS;
  }

  /** The inverse of the odd increment modulo the number of words, and the quotient of their product. */
  const INVERSE: nat := 0xdc58aa5d
  const QUOTIENT: nat := 1_576_479_847

  lemma Euclid(x: int)
    ensures x == WORDS * (x / WORDS) + x % WORDS && 0 <= x % WORDS < WORDS
  {
  }

  lemma Whole(b: Word, m: int)
    ensures (b + WORDS * m) % WORDS == b
  {
  }

  /** Multiplying by the inverse undoes the steps, up to whole words. */
  lemma Undo(a: int, b: int, q: int, k: int)
    requires (b - a) * INVERSE == WORDS * q + k
    ensures a + k * STEP == b + WORDS * ((b - a) * QUOTIENT - q * STEP)
  {
    assert STEP * INVERSE == 1 + QUOTIENT * WORDS;
  }

  lemma DrawsTo(a: Word, b: Word) returns (k: nat)
    ensures k < WORDS && After(a, k) == b
  {
    hide After;
    var x := (b - a) * INVERSE;
    Euclid(x);
    k := x % WORDS;
    Undo(a, b, x / WORDS, k);
    AfterIs(a, k);
    Whole(b, (b - a) * QUOTIENT - x / WORDS * STEP);
  }

  /** Whatever the seed, the states of 2^32 draws are all 32-bit words, each met exactly once. */
  lemma GeneratorCycle(a: Word, b: Word) returns (k: nat)
    ensures k < WORDS && After(a, k) == b
    ensures forall j: nat :: j < WORDS && After(a, j) == b ==> j == k
    ensures After(a, WORDS) == a
  {
    k := DrawsTo(a, b);
    forall j: nat | j < WORDS && After(a, j) == b ensures j == k { SameDraw(a, j, k); }
    AfterIs(a, WORDS);
    assert a + WORDS * STEP == a + STEP * WORDS;
  }

  lemma SameDraw(a: Word, j: nat, k: nat)
    requires j < WORDS && k < WORDS && After(a, j) == After(a, k)
    ensures j == k
  {
    AfterIs(a, j);
    AfterIs(a, k);
    assert STEP * INVERSE == 1 + QUOTIENT * WORDS;
    var x, y := a + j * STEP, a + k * STEP;
    var t := x / WORDS - y / WORDS;
    assert x - y == WORDS * t && x - y == (j - k) * STEP;
    assert (j - k) * (1 + QUOTIENT * WORDS) == WORDS * t * INVERSE;
    assert j - k == WORDS * (t * INVERSE - (j - k) * QUOTIENT);
    Multiple(t * INVERSE - (j - k) * QUOTIENT);
  }

  lemma Multiple(m: int)
    ensures m != 0 ==> m * WORDS >= WORDS || m * WORDS <= -WORDS
  {
  }

  /** mulberry32: the closure's state as a field. */
  class Mulberry32 {
    var state: Word

    constructor (seed: int)
      ensures state == SeedState(seed)
    {
      state := seed % WORDS;
    }

    /** The next draw, in units of 2^-32. */
    method Random() returns (u: bv32)
      modifies this
      ensures state == NextState(old(state)) && u == Output(state)
    {
      hide NextState, First, Second, Third;
      state := NextState(state);
      var value := First(state as bv32);
      value := Second(value);
      return Third(value);
    }
  }

  // ----- input

  datatype CaseEffect = CaseEffect(caseId: Text, groupId: Text, effect: real, trafficWeight: real)

  datatype BootstrapError =
    | BadIterations | BadAlpha | NoCases | TooManyCases | BadReplicates | BadCase | WorkExceeded

  datatype Interval = Interval(
    caseCount: nat, replicateCount: nat, groupCount: nat, mass: real, estimate: real, lo: real, hi: real, positive: bool)

  function CaseIdOf(c: CaseEffect): Text { c.caseId }
  function GroupIdOf(c: CaseEffect): Text { c.groupId }
  function Contribution(c: CaseEffect): real { c.effect * c.trafficWeight }
  function TrafficOf(c: CaseEffect): real { c.trafficWeight }

  /** Group, then case. */
  function CaseOrder(): (CaseEffect, CaseEffect) -> bool {
    (a: CaseEffect, b: CaseEffect) =>
      (if Compare(a.groupId, b.groupId) != 0 then Compare(a.groupId, b.groupId) else Compare(a.caseId, b.caseId)) <= 0
  }

  predicate CaseOk(c: CaseEffect) { c.caseId != [] && c.groupId != [] && c.trafficWeight > 0.0 }

  /** Non-empty ids, distinct cases, positive weights. */
  predicate CasesOk(cs: seq<CaseEffect>) {
    NoDuplicates(Map(CaseIdOf, cs)) && forall i :: 0 <= i < |cs| ==> CaseOk(cs[i])
  }

  // ----- group sums

  datatype GroupSum = GroupSum(numerator: real, mass: real)

  function SumOf(cs: seq<CaseEffect>): GroupSum { GroupSum(Total(cs, Contribution), Total(cs, TrafficOf)) }

  function Arranged(cs: seq<CaseEffect>): seq<CaseEffect> { Sort(cs, CaseOrder()) }
  function GroupIds(cs: seq<CaseEffect>): seq<Text> { Sort(Keys(Arranged(cs), GroupIdOf), ByKey(Itself)) }
  function SumBy(cs: seq<CaseEffect>): Text -> GroupSum { g => SumOf(Group(Arranged(cs), GroupIdOf, g)) }
  function GroupSums(cs: seq<CaseEffect>): seq<GroupSum> { Map(SumBy(cs), GroupIds(cs)) }

  // ----- draws

  /** floor(u / 2^32 * n) */
  function Pick(u: nat, n: nat): nat { u * n / 0x1_0000_0000 }

  lemma PickWithin(u: bv32, n: nat)
    requires n > 0
    ensures Pick(u as nat, n) < n
  {
    var k := u as nat;
    assert k < 0x1_0000_0000;
    assert k * n < 0x1_0000_0000 * n by { Strictly(k, 0x1_0000_0000, n); }
    Below(k * n, n);
  }

  lemma Strictly(a: nat, b: nat, n: nat)
    requires a < b && n > 0
    ensures a * n < b * n
  {
  }

  lemma Below(x: nat, n: nat)
    requires x < 0x1_0000_0000 * n
    ensures x / 0x1_0000_0000 < n
  {
  }

  function Sampled(gs: seq<GroupSum>, state: Word): GroupSum
    requires gs != []
  {
    PickWithin(Output(state), |gs|);
    gs[Pick(Output(state) as nat, |gs|)]
  }

  /** k samples with replacement: their sums and the generator state. */
  function Draw(gs: seq<GroupSum>, state: Word, k: nat): (GroupSum, Word)
    requires gs != []
  {
    if k == 0 then (GroupSum(0.0, 0.0), state)
    else
      var (sum, s) := Draw(gs, state, k - 1);
      var next := NextState(s);
      var g := Sampled(gs, next);
      (GroupSum(sum.numerator + g.numerator, sum.mass + g.mass), next)
  }

  predicate MassesPositive(gs: seq<GroupSum>) { forall i :: 0 <= i < |gs| ==> gs[i].mass > 0.0 }

  lemma SampledIn(gs: seq<GroupSum>, state: Word)
    requires gs != []
    ensures Sampled(gs, state) in gs
  {
    PickWithin(Output(state), |gs|);
  }

  lemma {:induction false} DrawMass(gs: seq<GroupSum>, state: Word, k: nat)
    requires gs != [] && MassesPositive(gs)
    ensures Draw(gs, state, k).0.mass >= 0.0 && (k > 0 ==> Draw(gs, state, k).0.mass > 0.0)
  {
    hide Output, NextState, Sampled;
    if k > 0 {
      DrawMass(gs, state, k - 1);
      SampledIn(gs, NextState(Draw(gs, state, k - 1).1));
    }
  }

  /** The estimate of one resampling. */
  function EstimateOf(gs: seq<GroupSum>, state: Word): real
    requires gs != [] && MassesPositive(gs)
  {
    DrawMass(gs, state, |gs|);
    var sum := Draw(gs, state, |gs|).0;
    sum.numerator / sum.mass
  }

  /** The bootstrap estimates and the final state. */
  function Estimates(gs: seq<GroupSum>, state: Word, iterations: nat): (seq<real>, Word)
    requires gs != [] && MassesPositive(gs)
  {
    if iterations == 0 then ([], state)
    else
      var (front, s) := Estimates(gs, state, iterations - 1);
      (front + [EstimateOf(gs, s)], Draw(gs, s, |gs|).1)
  }

  function RealOrder(): (real, real) -> bool { (a: real, b: real) => a <= b }

  // ----- conservation

  lemma {:induction false} GroupTotals(cs: seq<CaseEffect>, f: CaseEffect -> real, part: Text -> real)
    requires forall k :: part(k) == Total(Group(cs, GroupIdOf, k), f)
    ensures Total(Keys(cs, GroupIdOf), part) == Total(cs, f)
  {
    if cs != [] {
      var n := |cs| - 1;
      var front, key := cs[..n], GroupIdOf(cs[n]);
      var before := k => Total(Group(front, GroupIdOf, k), f);
      GroupTotals(front, f, before);
      KeysDistinct(front, GroupIdOf);
      forall k ensures part(k) == before(k) + if k == key then f(cs[n]) else 0.0 {
        GroupGrows(cs, f, k);
      }
      TotalBump(Keys(front, GroupIdOf), before, part, key, f(cs[n]));
      if key !in Keys(front, GroupIdOf) { NoGroup(front, GroupIdOf, key); }
    }
  }

  lemma GroupGrows(cs: seq<CaseEffect>, f: CaseEffect -> real, k: Text)
    requires cs != []
    ensures var n := |cs| - 1;
            Total(Group(cs, GroupIdOf, k), f)
            == Total(Group(cs[..n], GroupIdOf, k), f) + if k == GroupIdOf(cs[n]) then f(cs[n]) else 0.0
  {
    var n := |cs| - 1;
    var g := Group(cs[..n], GroupIdOf, k);
    if k == GroupIdOf(cs[n]) {
      TotalAppend(g, [cs[n]], f);
      TotalOne(cs[n], f);
    }
  }

  lemma {:induction false} TotalBump(ks: seq<Text>, f: Text -> real, g: Text -> real, key: Text, x: real)
    requires NoDuplicates(ks)
    requires forall k :: g(k) == f(k) + if k == key then x else 0.0
    ensures Total(ks, g) == Total(ks, f) + if key in ks then x else 0.0
  {
    if ks != [] {
      var n := |ks| - 1;
      DropLast(ks);
      assert ks[n] in ks && ks[n] !in ks[..n];
      TotalBump(ks[..n], f, g, key, x);
    }
  }

  function NumeratorOf(g: GroupSum): real { g.numerator }
  function MassOf(g: GroupSum): real { g.mass }

  lemma {:induction false} TotalMap<A, B>(xs: seq<A>, h: A -> B, f: B -> real, g: A -> real)
    requires forall x :: g(x) == f(h(x))
    ensures Total(Map(h, xs), f) == Total(xs, g)
  {
    if xs != [] {
      var n := |xs| - 1;
      assert Map(h, xs)[..n] == Map(h, xs[..n]);
      TotalMap(xs[..n], h, f, g);
    }
  }

  /** The group sums conserve the total weighted effect and the total traffic mass. */
  lemma GroupsConserve(cs: seq<CaseEffect>)
    ensures Total(GroupSums(cs), NumeratorOf) == Total(cs, Contribution)
    ensures Total(GroupSums(cs), MassOf) == Total(cs, TrafficOf)
  {
    var arranged := Arranged(cs);
    var numerator := k => Total(Group(arranged, GroupIdOf, k), Contribution);
    var mass := k => Total(Group(arranged, GroupIdOf, k), TrafficOf);
    SortPermutes(cs, CaseOrder());
    TotalPermutes(arranged, cs, Contribution);
    TotalPermutes(arranged, cs, TrafficOf);
    GroupTotals(arranged, Contribution, numerator);
    GroupTotals(arranged, TrafficOf, mass);
    SortPermutes(Keys(arranged, GroupIdOf), ByKey(Itself));
    TotalPermutes(GroupIds(cs), Keys(arranged, GroupIdOf), numerator);
    TotalPermutes(GroupIds(cs), Keys(arranged, GroupIdOf), mass);
    TotalMap(GroupIds(cs), SumBy(cs), NumeratorOf, numerator);
    TotalMap(GroupIds(cs), SumBy(cs), MassOf, mass);
  }

  lemma {:induction false} TotalPositive(cs: seq<CaseEffect>)
    requires forall c :: c in cs ==> c.trafficWeight > 0.0
    ensures Total(cs, TrafficOf) >= 0.0 && (cs != [] ==> Total(cs, TrafficOf) > 0.0)
  {
    if cs != [] {
      DropLast(cs);
      assert cs[|cs| - 1] in cs;
      TotalPositive(cs[..|cs| - 1]);
    }
  }

  /** Every group of valid cases has positive mass, and there is a group when there is a case. */
  lemma GroupsPositive(cs: seq<CaseEffect>)
    requires CasesOk(cs)
    ensures MassesPositive(GroupSums(cs)) && (cs != [] ==> GroupSums(cs) != [])
  {
    var arranged, ids := Arranged(cs), GroupIds(cs);
    SortPermutes(cs, CaseOrder());
    SameMembers(arranged, cs);
    SortPermutes(Keys(arranged, GroupIdOf), ByKey(Itself));
    SameMembers(ids, Keys(arranged, GroupIdOf));
    forall i | 0 <= i < |ids| ensures GroupSums(cs)[i].mass > 0.0 {
      assert ids[i] in ids;
      GroupMembers(arranged, GroupIdOf, ids[i]);
      TotalPositive(Group(arranged, GroupIdOf, ids[i]));
    }
    if cs != [] {
      KeysAre(arranged, GroupIdOf);
      assert cs[0] in arranged;
      assert GroupIdOf(cs[0]) in ids;
    }
  }

  // ----- the whole computation

  function Bootstrap(cs: seq<CaseEffect>, iterations: nat, alpha: real, seed: int, replicates: nat): Interval
    requires CasesOk(cs) && cs != [] && iterations > 0
  {
    GroupsPositive(cs);
    var gs := GroupSums(cs);
    var (lo, hi) := BoundsOf(gs, seed, iterations, alpha);
    SumPositive(cs);
    Interval(|cs|, replicates, |gs|, Total(cs, TrafficOf), Total(cs, Contribution) / Total(cs, TrafficOf), lo, hi, lo > 0.0)
  }

  lemma SumPositive(cs: seq<CaseEffect>)
    requires CasesOk(cs) && cs != []
    ensures Total(cs, TrafficOf) > 0.0
  {
    TotalPositive(cs);
  }

  lemma {:induction false} EstimateCount(gs: seq<GroupSum>, state: Word, iterations: nat)
    requires gs != [] && MassesPositive(gs)
    ensures |Estimates(gs, state, iterations).0| == iterations
  {
    if iterations > 0 { EstimateCount(gs, state, iterations - 1); }
  }

  /** The interval's ends: the alpha / 2 and 1 - alpha / 2 quantiles. */
  function Percentiles(estimates: seq<real>, alpha: real): (real, real)
    requires estimates != []
  {
    SortPermutes(estimates, RealOrder());
    var sorted := Sort(estimates, RealOrder());
    (QuantileFromSorted(sorted, alpha / 2.0), QuantileFromSorted(sorted, 1.0 - alpha / 2.0))
  }

  function BoundsOf(gs: seq<GroupSum>, seed: int, iterations: nat, alpha: real): (real, real)
    requires gs != [] && MassesPositive(gs) && iterations > 0
  {
    EstimateCount(gs, SeedState(seed), iterations);
    Percentiles(Estimates(gs, SeedState(seed), iterations).0, alpha)
  }

  // ----- bounds

  /** lo <= n / m <= hi, in product form. */
  predicate Within(lo: real, hi: real, n: real, m: real) { lo * m <= n <= hi * m }

  /** lo and hi bound every group mean. */
  predicate BoundsMeans(gs: seq<GroupSum>, lo: real, hi: real) {
    forall i :: 0 <= i < |gs| ==> Within(lo, hi, gs[i].numerator, gs[i].mass)
  }

  lemma Distribute(a: real, x: real, y: real)
    ensures a * (x + y) == a * x + a * y
  {
  }

  /** Bounds on two ratios bound the ratio of the sums. */
  lemma Mediant(lo: real, hi: real, n: real, m: real, n': real, m': real)
    requires Within(lo, hi, n, m) && Within(lo, hi, n', m')
    ensures Within(lo, hi, n + n', m + m')
  {
    Distribute(lo, m, m');
    Distribute(hi, m, m');
  }

  lemma {:induction false} DrawBounds(gs: seq<GroupSum>, state: Word, k: nat, lo: real, hi: real)
    requires gs != [] && BoundsMeans(gs, lo, hi)
    ensures var s := Draw(gs, state, k).0; Within(lo, hi, s.numerator, s.mass)
  {
    if k == 0 {
      assert Within(lo, hi, 0.0, 0.0);
    } else {
      hide Output, NextState, Sampled, Within;
      DrawBounds(gs, state, k - 1, lo, hi);
      var (sum, s) := Draw(gs, state, k - 1);
      SampledIn(gs, NextState(s));
      var g := Sampled(gs, NextState(s));
      Mediant(lo, hi, sum.numerator, sum.mass, g.numerator, g.mass);
    }
  }

  lemma Quotient(lo: real, hi: real, n: real, m: real)
    requires m > 0.0 && Within(lo, hi, n, m)
    ensures lo <= n / m <= hi
  {
    var q := n / m;
    assert q * m == n;
    if q < lo { Less(q, lo, m); }
    if hi < q { Less(hi, q, m); }
  }

  lemma Less(a: real, b: real, m: real)
    requires a < b && m > 0.0
    ensures a * m < b * m
  {
  }

  lemma EstimateBetween(gs: seq<GroupSum>, state: Word, lo: real, hi: real)
    requires gs != [] && MassesPositive(gs) && BoundsMeans(gs, lo, hi)
    ensures lo <= EstimateOf(gs, state) <= hi
  {
    hide Draw, Within, BoundsMeans;
    DrawMass(gs, state, |gs|);
    DrawBounds(gs, state, |gs|, lo, hi);
    var sum := Draw(gs, state, |gs|).0;
    Quotient(lo, hi, sum.numerator, sum.mass);
  }

  lemma {:induction false} EstimateBounds(gs: seq<GroupSum>, state: Word, iterations: nat, lo: real, hi: real)
    requires gs != [] && MassesPositive(gs) && BoundsMeans(gs, lo, hi)
    ensures forall e :: e in Estimates(gs, state, iterations).0 ==> lo <= e <= hi
  {
    hide Draw, BoundsMeans, EstimateOf, MassesPositive;
    if iterations > 0 {
      EstimateBounds(gs, state, iterations - 1, lo, hi);
      EstimateBetween(gs, Estimates(gs, state, iterations - 1).1, lo, hi);
    }
  }

  lemma {:induction false} TotalBounds(gs: seq<GroupSum>, lo: real, hi: real)
    requires BoundsMeans(gs, lo, hi)
    ensures Within(lo, hi, Total(gs, NumeratorOf), Total(gs, MassOf))
  {
    if gs == [] {
      assert Within(lo, hi, 0.0, 0.0);
    } else {
      hide Within;
      var n := |gs| - 1;
      TotalBounds(gs[..n], lo, hi);
      Mediant(lo, hi, Total(gs[..n], NumeratorOf), Total(gs[..n], MassOf), gs[n].numerator, gs[n].mass);
    }
  }

  lemma RealPreorder()
    ensures Preorder(RealOrder())
  {
  }

  lemma SortedReals(xs: seq<real>)
    ensures var sorted := Sort(xs, RealOrder());
            |sorted| == |xs| && Ascending(sorted) && forall x :: x in sorted <==> x in xs
  {
    hide Sort;
    var sorted := Sort(xs, RealOrder());
    SortPermutes(xs, RealOrder());
    RealPreorder();
    SortSorts(xs, RealOrder());
    SameMembers(sorted, xs);
    forall i, j | 0 <= i < j < |sorted| ensures sorted[i] <= sorted[j] { assert RealOrder()(sorted[i], sorted[j]); }
  }

  lemma PercentilesBetween(estimates: seq<real>, alpha: real, lo: real, hi: real)
    requires estimates != [] && 0.0 < alpha < 1.0 && forall e :: e in estimates ==> lo <= e <= hi
    ensures var b := Percentiles(estimates, alpha); lo <= b.0 <= b.1 <= hi
  {
    hide Sort, QuantileFromSorted, Ascending;
    SortedReals(estimates);
    var sorted := Sort(estimates, RealOrder());
    assert sorted[0] in sorted && sorted[|sorted| - 1] in sorted;
    QuantileOrder(sorted, alpha / 2.0, 1.0 - alpha / 2.0);
  }

  lemma BoundsOrder(gs: seq<GroupSum>, seed: int, iterations: nat, alpha: real, lo: real, hi: real)
    requires gs != [] && MassesPositive(gs) && iterations > 0 && 0.0 < alpha < 1.0 && BoundsMeans(gs, lo, hi)
    ensures var b := BoundsOf(gs, seed, iterations, alpha); lo <= b.0 <= b.1 <= hi
  {
    EstimateCount(gs, SeedState(seed), iterations);
    EstimateBounds(gs, SeedState(seed), iterations, lo, hi);
    hide Estimates, BoundsMeans, SeedState, Percentiles;
    PercentilesBetween(Estimates(gs, SeedState(seed), iterations).0, alpha, lo, hi);
  }

  lemma EstimateWithin(cs: seq<CaseEffect>, lo: real, hi: real)
    requires CasesOk(cs) && cs != [] && BoundsMeans(GroupSums(cs), lo, hi)
    ensures Total(cs, TrafficOf) > 0.0 && lo <= Total(cs, Contribution) / Total(cs, TrafficOf) <= hi
  {
    hide GroupSums, Total, Within, BoundsMeans;
    GroupsConserve(cs);
    TotalBounds(GroupSums(cs), lo, hi);
    SumPositive(cs);
    Quotient(lo, hi, Total(cs, Contribution), Total(cs, TrafficOf));
  }

  /** The interval is ordered and, like the estimate, lies between any bounds on the group means. */
  lemma IntervalWithinGroups(cs: seq<CaseEffect>, iterations: nat, alpha: real, seed: int, replicates: nat, lo: real, hi: real)
    requires CasesOk(cs) && cs != [] && iterations > 0 && 0.0 < alpha < 1.0 && BoundsMeans(GroupSums(cs), lo, hi)
    ensures var r := Bootstrap(cs, iterations, alpha, seed, replicates);
            lo <= r.lo <= r.hi <= hi && lo <= r.estimate <= hi
  {
    GroupsPositive(cs);
    EstimateWithin(cs, lo, hi);
    hide GroupSums, Estimates, BoundsOf, Total, BoundsMeans, CasesOk;
    BoundsOrder(GroupSums(cs), seed, iterations, alpha, lo, hi);
  }

  /** One group leaves no variation: both ends are the estimate. */
  lemma OneGroupIsExact(cs: seq<CaseEffect>, iterations: nat, alpha: real, seed: int, replicates: nat)
    requires CasesOk(cs) && cs != [] && iterations > 0 && 0.0 < alpha < 1.0 && |GroupSums(cs)| == 1
    ensures var r := Bootstrap(cs, iterations, alpha, seed, replicates); r.lo == r.estimate == r.hi
  {
    GroupsPositive(cs);
    var g := GroupSums(cs)[0];
    var m := g.numerator / g.mass;
    assert m * g.mass == g.numerator;
    IntervalWithinGroups(cs, iterations, alpha, seed, replicates, m, m);
  }

  // ----- order

  lemma CasePreorder()
    ensures Preorder(CaseOrder())
  {
    var le := CaseOrder();
    forall a, b ensures le(a, b) || le(b, a) {
      CompareAntisymmetric(a.groupId, b.groupId);
      CompareAntisymmetric(a.caseId, b.caseId);
    }
    forall a, b, c | le(a, b) && le(b, c) ensures le(a, c) { CaseLeTransitive(a, b, c); }
  }

  lemma CaseLeTransitive(a: CaseEffect, b: CaseEffect, c: CaseEffect)
    requires CaseOrder()(a, b) && CaseOrder()(b, c)
    ensures CaseOrder()(a, c)
  {
    CompareZero(a.groupId, b.groupId);
    CompareZero(b.groupId, c.groupId);
    CompareZero(a.groupId, c.groupId);
    LeSteps(a.groupId, b.groupId, c.groupId);
    LeSteps(a.caseId, b.caseId, c.caseId);
    CompareAntisymmetric(a.groupId, b.groupId);
  }

  lemma LeSteps(a: Text, b: Text, c: Text)
    ensures Compare(a, b) <= 0 && Compare(b, c) <= 0 ==> Compare(a, c) <= 0
    ensures Compare(a, b) < 0 && Compare(b, c) < 0 ==> Compare(a, c) < 0
  {
    if Compare(a, b) <= 0 && Compare(b, c) <= 0 { LeTransitive(a, b, c); }
    if Compare(a, b) < 0 && Compare(b, c) < 0 { BeforeTransitive(a, b, c); }
  }

  lemma CasesTellApart(cs: seq<CaseEffect>)
    requires NoDuplicates(Map(CaseIdOf, cs))
    ensures Distinguishes(CaseOrder(), cs)
  {
    forall a, b | a in cs && b in cs && CaseOrder()(a, b) && CaseOrder()(b, a) ensures a == b {
      CompareAntisymmetric(a.groupId, b.groupId);
      CompareAntisymmetric(a.caseId, b.caseId);
      CompareZero(a.caseId, b.caseId);
      var i :| 0 <= i < |cs| && cs[i] == a;
      var j :| 0 <= j < |cs| && cs[j] == b;
      assert Map(CaseIdOf, cs)[i] == CaseIdOf(a) && Map(CaseIdOf, cs)[j] == CaseIdOf(b);
    }
  }

  /** The result ignores the order of the cases. */
  lemma CaseOrderForgotten(cs: seq<CaseEffect>, ds: seq<CaseEffect>, iterations: nat, alpha: real, seed: int, replicates: nat)
    requires CasesOk(cs) && CasesOk(ds) && multiset(cs) == multiset(ds) && cs != [] && iterations > 0
    ensures ds != [] && Bootstrap(cs, iterations, alpha, seed, replicates) == Bootstrap(ds, iterations, alpha, seed, replicates)
  {
    hide CasesOk, Sort, Estimates, BoundsOf;
    SameSize(cs, ds);
    ArrangedSame(cs, ds);
    assert SumBy(cs) == SumBy(ds);
    TotalPermutes(cs, ds, Contribution);
    TotalPermutes(cs, ds, TrafficOf);
  }

  lemma ArrangedSame(cs: seq<CaseEffect>, ds: seq<CaseEffect>)
    requires CasesOk(cs) && multiset(cs) == multiset(ds)
    ensures Arranged(cs) == Arranged(ds) && GroupSums(cs) == GroupSums(ds)
  {
    CasePreorder();
    CasesTellApart(cs);
    SortForgetsOrder(cs, ds, CaseOrder());
    hide Sort, CasesOk;
    var f, g, ids := SumBy(cs), SumBy(ds), GroupIds(cs);
    assert forall k :: f(k) == g(k);
    assert Map(f, ids) == Map(g, ids);
  }

  // ----- the program's loops

  method ValidateCases(cs: seq<CaseEffect>) returns (ok: bool)
    ensures ok <==> CasesOk(cs)
  {
    var caseIds: set<Text> := {};
    for i := 0 to |cs|
      invariant CasesOk(cs[..i]) && caseIds == set c | c in cs[..i] :: c.caseId
    {
      var entry := cs[i];
      assert cs[..i + 1] == cs[..i] + [entry];
      if |entry.caseId| == 0 || |entry.groupId| == 0 || entry.caseId in caseIds || entry.trafficWeight <= 0.0 {
        CaseFails(cs, i);
        return false;
      }
      CaseAdds(cs[..i], entry);
      caseIds := caseIds + {entry.caseId};
    }
    assert cs[..|cs|] == cs;
    return true;
  }

  lemma CaseFails(cs: seq<CaseEffect>, i: nat)
    requires i < |cs|
    requires !CaseOk(cs[i]) || exists c :: c in cs[..i] && c.caseId == cs[i].caseId
    ensures !CasesOk(cs)
  {
    if c :| c in cs[..i] && c.caseId == cs[i].caseId {
      var j :| 0 <= j < i && cs[j] == c;
      assert Map(CaseIdOf, cs)[j] == CaseIdOf(c) && Map(CaseIdOf, cs)[i] == CaseIdOf(cs[i]);
    }
  }

  lemma CaseAdds(front: seq<CaseEffect>, c: CaseEffect)
    requires CasesOk(front) && CaseOk(c) && forall b :: b in front ==> b.caseId != c.caseId
    ensures CasesOk(front + [c])
  {
    var ids, all := Map(CaseIdOf, front), Map(CaseIdOf, front + [c]);
    assert all == ids + [c.caseId] by {
      forall k | 0 <= k < |all| ensures all[k] == (ids + [c.caseId])[k] { assert all[k] == CaseIdOf((front + [c])[k]); }
    }
    forall k | 0 <= k < |ids| ensures ids[k] != c.caseId { assert ids[k] == CaseIdOf(front[k]) && front[k] in front; }
  }

  lemma SumStep(arranged: seq<CaseEffect>, i: nat, k: Text)
    requires i < |arranged|
    ensures var a, b := SumOf(Group(arranged[..i], GroupIdOf, k)), SumOf(Group(arranged[..i + 1], GroupIdOf, k));
            b == if arranged[i].groupId == k
                 then GroupSum(a.numerator + Contribution(arranged[i]), a.mass + arranged[i].trafficWeight) else a
  {
    var front := arranged[..i + 1];
    assert front[..i] == arranged[..i];
    GroupGrows(front, Contribution, k);
    GroupGrows(front, TrafficOf, k);
  }

  /** The accumulators of a prefix, in order of first occurrence. */
  predicate Accumulated(cs: seq<CaseEffect>, order: seq<Text>, byGroup: map<Text, GroupSum>) {
    && order == Keys(cs, GroupIdOf) && byGroup.Keys == (set k | k in order)
    && forall k :: k in order ==> byGroup[k] == SumOf(Group(cs, GroupIdOf, k))
  }

  lemma AccumulateStep(arranged: seq<CaseEffect>, i: nat, order: seq<Text>, byGroup: map<Text, GroupSum>)
    requires i < |arranged| && Accumulated(arranged[..i], order, byGroup)
    ensures var e := arranged[i];
            var group := if e.groupId in byGroup then byGroup[e.groupId] else GroupSum(0.0, 0.0);
            Accumulated(arranged[..i + 1], if e.groupId in order then order else order + [e.groupId],
                        byGroup[e.groupId := GroupSum(group.numerator + Contribution(e), group.mass + e.trafficWeight)])
  {
    hide SumOf, Contribution, Group, Keys;
    var e := arranged[i];
    assert arranged[..i + 1] == arranged[..i] + [e];
    KeysStep(arranged[..i], e, GroupIdOf);
    if e.groupId !in order {
      NoGroup(arranged[..i], GroupIdOf, e.groupId);
      NothingSums();
    }
    forall k ensures k in order || k == e.groupId ==>
        SumOf(Group(arranged[..i + 1], GroupIdOf, k))
        == var a := SumOf(Group(arranged[..i], GroupIdOf, k));
           if e.groupId == k then GroupSum(a.numerator + Contribution(e), a.mass + e.trafficWeight) else a {
      SumStep(arranged, i, k);
    }
  }

  /** One pass over the arranged cases: the totals, and one accumulator for each group. */
  method AccumulateArranged(arranged: seq<CaseEffect>)
      returns (order: seq<Text>, byGroup: map<Text, GroupSum>, numerator: real, mass: real)
    ensures Accumulated(arranged, order, byGroup)
    ensures numerator == Total(arranged, Contribution) && mass == Total(arranged, TrafficOf)
  {
    hide Contribution, Accumulated;
    numerator, mass, order, byGroup := 0.0, 0.0, [], map[];
    NothingAccumulated();
    for i := 0 to |arranged|
      invariant numerator == Total(arranged[..i], Contribution) && mass == Total(arranged[..i], TrafficOf)
      invariant Accumulated(arranged[..i], order, byGroup)
    {
      var entry := arranged[i];
      assert arranged[..i + 1][..i] == arranged[..i];
      AccumulateStep(arranged, i, order, byGroup);
      numerator, mass := numerator + Contribution(entry), mass + entry.trafficWeight;
      var group := if entry.groupId in byGroup then byGroup[entry.groupId] else GroupSum(0.0, 0.0);
      order := if entry.groupId in order then order else order + [entry.groupId];
      byGroup := byGroup[entry.groupId := GroupSum(group.numerator + Contribution(entry), group.mass + entry.trafficWeight)];
    }
    assert arranged[..|arranged|] == arranged;
  }

  lemma NothingAccumulated()
    ensures Accumulated([], [], map[])
  {
  }

  method Accumulate(cs: seq<CaseEffect>) returns (gs: seq<GroupSum>, numerator: real, mass: real)
    ensures gs == GroupSums(cs)
    ensures numerator == Total(cs, Contribution) && mass == Total(cs, TrafficOf)
  {
    hide Sort, SumOf, Contribution, Group, Keys, Total;
    var arranged := Sort(cs, CaseOrder());
    SortPermutes(cs, CaseOrder());
    TotalPermutes(arranged, cs, Contribution);
    TotalPermutes(arranged, cs, TrafficOf);
    var order, byGroup;
    order, byGroup, numerator, mass := AccumulateArranged(arranged);
    var ids := Sort(order, ByKey(Itself));
    SortPermutes(order, ByKey(Itself));
    SameMembers(ids, order);
    gs := seq(|ids|, i requires 0 <= i < |ids| => assert ids[i] in ids; byGroup[ids[i]]);
    assert gs == Map(SumBy(cs), ids);
  }

  lemma NothingSums()
    ensures SumOf([]) == GroupSum(0.0, 0.0)
  {
  }

  /** The inner loop: as many samples as there are groups. */
  method SampleGroups(gs: seq<GroupSum>, random: Mulberry32) returns (sum: GroupSum)
    requires gs != []
    modifies random
    ensures sum == Draw(gs, old(random.state), |gs|).0 && random.state == Draw(gs, old(random.state), |gs|).1
  {
    hide NextState, Output;
    sum := GroupSum(0.0, 0.0);
    for i := 0 to |gs|
      invariant sum == Draw(gs, old(random.state), i).0 && random.state == Draw(gs, old(random.state), i).1
    {
      var u := random.Random();
      PickWithin(u, |gs|);
      var sampled := gs[Pick(u as nat, |gs|)];
      sum := GroupSum(sum.numerator + sampled.numerator, sum.mass + sampled.mass);
    }
  }

  method Resample(gs: seq<GroupSum>, seed: int, iterations: nat) returns (estimates: seq<real>)
    requires gs != [] && MassesPositive(gs)
    ensures estimates == Estimates(gs, SeedState(seed), iterations).0
  {
    hide Draw;
    var random := new Mulberry32(seed);
    estimates := [];
    for i := 0 to iterations
      invariant fresh(random)
      invariant estimates == Estimates(gs, SeedState(seed), i).0 && random.state == Estimates(gs, SeedState(seed), i).1
    {
      DrawMass(gs, random.state, |gs|);
      var sum := SampleGroups(gs, random);
      estimates := estimates + [sum.numerator / sum.mass];
    }
  }

  /** What the options and the cases must satisfy. */
  predicate Valid(cs: seq<CaseEffect>, iterations: int, alpha: real, replicates: int) {
    && 1 <= iterations <= 1_000_000 && 0.0 < alpha < 1.0 && 0 < |cs| <= 100_000
    && |cs| <= replicates <= 1_000_000 && CasesOk(cs)
    && (GroupSums(cs) != [] ==> iterations <= 100_000_000 / |GroupSums(cs)|)
  }

  /** What is refused first, in the order of the checks. */
  function Refusal(cs: seq<CaseEffect>, iterations: int, alpha: real, replicates: int): Option<BootstrapError> {
    if !(1 <= iterations <= 1_000_000) then Some(BadIterations)
    else if !(0.0 < alpha < 1.0) then Some(BadAlpha)
    else if cs == [] then Some(NoCases)
    else if |cs| > 100_000 then Some(TooManyCases)
    else if !(|cs| <= replicates <= 1_000_000) then Some(BadReplicates)
    else if !CasesOk(cs) then Some(BadCase)
    else if GroupSums(cs) != [] && iterations > 100_000_000 / |GroupSums(cs)| then Some(WorkExceeded)
    else None
  }

  lemma ValidIffNotRefused(cs: seq<CaseEffect>, iterations: int, alpha: real, replicates: int)
    ensures Valid(cs, iterations, alpha, replicates) <==> Refusal(cs, iterations, alpha, replicates).None?
  {
    hide CasesOk, GroupSums;
  }

  /** bootstrapGroupedWeightedMeanCI */
  method BootstrapGroupedWeightedMeanCI(cs: seq<CaseEffect>, iterations: int, alpha: real, seed: int, replicates: int)
      returns (r: Result<Interval, BootstrapError>)
    ensures r.Ok? <==> Valid(cs, iterations, alpha, replicates)
    ensures r.Ok? ==> r.value == Bootstrap(cs, iterations, alpha, seed, replicates)
    ensures r.Err? ==> Refusal(cs, iterations, alpha, replicates) == Some(r.error)
  {
    if iterations < 1 || iterations > 1_000_000 { return Err(BadIterations); }
    if alpha <= 0.0 || alpha >= 1.0 { return Err(BadAlpha); }
    if |cs| == 0 { return Err(NoCases); }
    if |cs| > 100_000 { return Err(TooManyCases); }
    if replicates < |cs| || replicates > 1_000_000 { return Err(BadReplicates); }
    hide CasesOk, GroupSums, Estimates, Sort, Total;
    var valid := ValidateCases(cs);
    if !valid { return Err(BadCase); }
    GroupsPositive(cs);
    SumPositive(cs);
    var gs, numerator, mass := Accumulate(cs);
    if iterations > 100_000_000 / |gs| { return Err(WorkExceeded); }
    var estimates := Resample(gs, seed, iterations);
    EstimateCount(gs, SeedState(seed), iterations);
    SortPermutes(estimates, RealOrder());
    var sorted := Sort(estimates, RealOrder());
    var lo := QuantileFromSorted(sorted, alpha / 2.0);
    var hi := QuantileFromSorted(sorted, 1.0 - alpha / 2.0);
    return Ok(Interval(|cs|, replicates, |gs|, mass, numerator / mass, lo, hi, lo > 0.0));
  }

  /** Some numbers bound every group mean. */
  lemma {:induction false} SomeBounds(gs: seq<GroupSum>) returns (lo: real, hi: real)
    requires MassesPositive(gs)
    ensures lo <= hi && BoundsMeans(gs, lo, hi)
  {
    if gs == [] {
      lo, hi := 0.0, 0.0;
    } else {
      var n := |gs| - 1;
      var l, h := SomeBounds(gs[..n]);
      var m := gs[n].numerator / gs[n].mass;
      assert m * gs[n].mass == gs[n].numerator;
      lo, hi := if m < l then m else l, if m > h then m else h;
      forall i | 0 <= i < |gs| ensures Within(lo, hi, gs[i].numerator, gs[i].mass) {
        if i < n {
          assert Within(l, h, gs[..n][i].numerator, gs[..n][i].mass);
          Widen(l, h, lo, hi, gs[i].numerator, gs[i].mass);
        } else {
          assert Within(m, m, gs[n].numerator, gs[n].mass);
          Widen(m, m, lo, hi, gs[n].numerator, gs[n].mass);
        }
      }
    }
  }

  lemma Widen(l: real, h: real, lo: real, hi: real, n: real, m: real)
    requires Within(l, h, n, m) && lo <= l && h <= hi && m > 0.0
    ensures Within(lo, hi, n, m)
  {
    Ordered(lo, l, m);
    Ordered(h, hi, m);
  }

  /** The interval is ordered, whatever the cases. */
  lemma IntervalOrdered(cs: seq<CaseEffect>, iterations: nat, alpha: real, seed: int, replicates: nat)
    requires CasesOk(cs) && cs != [] && iterations > 0 && 0.0 < alpha < 1.0
    ensures var r := Bootstrap(cs, iterations, alpha, seed, replicates);
            r.lo <= r.hi && r.mass > 0.0 && (r.positive <==> r.lo > 0.0)
  {
    GroupsPositive(cs);
    var lo, hi := SomeBounds(GroupSums(cs));
    IntervalWithinGroups(cs, iterations, alpha, seed, replicates, lo, hi);
    SumPositive(cs);
  }

  // ----- median

  /** The middle of the sorted values, or the mean of the two middle ones. */
  function Median(xs: seq<real>): real
    requires xs != []
  {
    SortedReals(xs);
    var sorted, middle := Sort(xs, RealOrder()), |xs| / 2;
    if |xs| % 2 == 1 then sorted[middle] else (sorted[middle - 1] + sorted[middle]) / 2.0
  }

  /** The median forgets the order of the values and lies between the extremes. */
  lemma MedianBetween(xs: seq<real>, ys: seq<real>, lo: real, hi: real)
    requires xs != [] && multiset(xs) == multiset(ys) && forall x :: x in xs ==> lo <= x <= hi
    ensures ys != [] && Median(xs) == Median(ys) && lo <= Median(xs) <= hi
  {
    SameSize(xs, ys);
    RealPreorder();
    SortForgetsOrder(xs, ys, RealOrder());
    SortedReals(xs);
    hide Sort;
    var sorted := Sort(xs, RealOrder());
    assert forall i :: 0 <= i < |sorted| ==> sorted[i] in sorted;
  }
}
