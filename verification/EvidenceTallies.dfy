/** Tallies of a dataset by split and by slice: case replicates, independent groups and traffic mass. */
module EvidenceTallies {
  import opened CodeUnits
  import opened Sorting
  import opened Grouping
  import opened EvidenceModel

  function GroupIdKey(t: Trace): Text { t.groupId }
  function SplitKey(t: Trace): Split { t.split }

  function Mass(ts: seq<Trace>): real { if ts == [] then 0.0 else Mass(ts[..|ts| - 1]) + ts[|ts| - 1].weight }

  // ----- counting by key

  type Tally<!K> = map<K, (nat, set<Text>)>

  /** One more element: its key's count and its key's groups grow. */
  function Tallied<K(==)>(m: Tally<K>, key: K, group: Text): Tally<K> {
    var old_ := if key in m then m[key] else (0, {});
    m[key := (old_.0 + 1, old_.1 + {group})]
  }

  /** The count and the groups of one key's elements. */
  ghost function Share<T, K>(xs: seq<T>, keyOf: T -> K, groupOf: T -> Text, k: K): (nat, set<Text>) {
    var g := Group(xs, keyOf, k);
    (|g|, set id | id in Keys(g, groupOf))
  }

  ghost predicate Tallies<T(!new), K(!new)>(m: Tally<K>, xs: seq<T>, keyOf: T -> K, groupOf: T -> Text) {
    && (forall k :: k in m <==> k in Keys(xs, keyOf))
    && forall k :: k in m ==> m[k] == Share(xs, keyOf, groupOf, k)
  }

  lemma ShareStep<T(!new), K(!new)>(xs: seq<T>, x: T, keyOf: T -> K, groupOf: T -> Text, k: K)
    ensures var old_, new_ := Share(xs, keyOf, groupOf, k), Share(xs + [x], keyOf, groupOf, k);
            && (keyOf(x) == k ==> new_ == (old_.0 + 1, old_.1 + {groupOf(x)})) && (keyOf(x) != k ==> new_ == old_)
    ensures k !in Keys(xs, keyOf) ==> Share(xs, keyOf, groupOf, k) == (0, {})
  {
    var g := Group(xs, keyOf, k);
    GroupStep(xs, x, keyOf, k);
    KeysStep(g, x, groupOf);
    if k !in Keys(xs, keyOf) {
      NoGroup(xs, keyOf, k);
      assert Share(xs, keyOf, groupOf, k).1 == {};
    }
    var old_, new_ := Share(xs, keyOf, groupOf, k), Share(xs + [x], keyOf, groupOf, k);
    if keyOf(x) == k {
      assert Group(xs + [x], keyOf, k) == g + [x];
      assert forall id :: id in Keys(g + [x], groupOf) <==> id in Keys(g, groupOf) || id == groupOf(x);
      assert new_.1 == old_.1 + {groupOf(x)};
    } else {
      assert Group(xs + [x], keyOf, k) == g;
      assert new_.1 == old_.1;
    }
  }

  lemma TallyStep<T(!new), K(!new)>(m: Tally<K>, xs: seq<T>, x: T, keyOf: T -> K, groupOf: T -> Text)
    requires Tallies(m, xs, keyOf, groupOf)
    ensures Tallies(Tallied(m, keyOf(x), groupOf(x)), xs + [x], keyOf, groupOf)
  {
    KeysStep(xs, x, keyOf);
    hide Keys, Share;
    forall k ensures k in Tallied(m, keyOf(x), groupOf(x)) ==>
        Tallied(m, keyOf(x), groupOf(x))[k] == Share(xs + [x], keyOf, groupOf, k) {
      ShareStep(xs, x, keyOf, groupOf, k);
    }
  }

  /** The groups of a key, counted as a set or as distinct keys. */
  lemma {:induction false} DistinctCount(ks: seq<Text>)
    requires NoDuplicates(ks)
    ensures |set k | k in ks| == |ks|
  {
    if ks != [] {
      var n := |ks| - 1;
      DropLast(ks);
      DistinctCount(ks[..n]);
      assert ks[n] !in ks[..n];
      assert (set k | k in ks) == (set k | k in ks[..n]) + {ks[n]};
    }
  }

  lemma GroupCount<T>(g: seq<T>, groupOf: T -> Text)
    ensures |set k | k in Keys(g, groupOf)| == |Keys(g, groupOf)|
  {
    KeysDistinct(g, groupOf);
    DistinctCount(Keys(g, groupOf));
  }

  // ----- splits

  /** In code-unit order of their names. */
  const SPLITS: seq<Split> := [Dev, Holdout, Online]

  function SplitTallyBy(units: seq<Trace>, cases: seq<Trace>): Split -> seq<SplitTally> {
    s =>
      var g := Group(units, SplitKey, s);
      if g == [] then [] else [SplitTally(s, |g|, |Keys(g, GroupIdKey)|, Mass(Group(cases, SplitKey, s)))]
  }

  /** The splits that occur, with their replicates, groups and the mass of their cases. */
  function SplitTallies(units: seq<Trace>, cases: seq<Trace>): seq<SplitTally> { Gather(SPLITS, SplitTallyBy(units, cases)) }

  /** The mass of every split's cases. */
  ghost predicate Masses(m: map<Split, real>, cases: seq<Trace>) {
    forall s :: (if s in m then m[s] else 0.0) == Mass(Group(cases, SplitKey, s))
  }

  lemma MassStep(m: map<Split, real>, cases: seq<Trace>, t: Trace)
    requires Masses(m, cases)
    ensures Masses(m[t.split := (if t.split in m then m[t.split] else 0.0) + t.weight], cases + [t])
  {
    forall s ensures Mass(Group(cases + [t], SplitKey, s)) == Mass(Group(cases, SplitKey, s)) + if s == t.split then t.weight else 0.0 {
      MassGrows(cases, t, s);
    }
  }

  lemma MassGrows(ts: seq<Trace>, t: Trace, s: Split)
    ensures var g, h := Group(ts, SplitKey, s), Group(ts + [t], SplitKey, s);
            Mass(h) == Mass(g) + (if s == t.split then t.weight else 0.0) && |h| == |g| + if s == t.split then 1 else 0
  {
    GroupStep(ts, t, SplitKey, s);
    var g := Group(ts, SplitKey, s);
    assert (g + [t])[..|g|] == g;
    assert g + [] == g;
  }

  /** The two loops over case replicates and over cases. */
  method TallySplits(units: seq<Trace>, cases: seq<Trace>) returns (r: seq<SplitTally>)
    ensures r == SplitTallies(units, cases)
  {
    var counts: Tally<Split>, masses: map<Split, real> := map[], map[];
    for i := 0 to |units|
      invariant Tallies(counts, units[..i], SplitKey, GroupIdKey)
    {
      assert units[..i + 1] == units[..i] + [units[i]];
      TallyStep(counts, units[..i], units[i], SplitKey, GroupIdKey);
      counts := Tallied(counts, units[i].split, units[i].groupId);
    }
    for i := 0 to |cases|
      invariant Masses(masses, cases[..i])
    {
      assert cases[..i + 1] == cases[..i] + [cases[i]];
      MassStep(masses, cases[..i], cases[i]);
      masses := masses[cases[i].split := (if cases[i].split in masses then masses[cases[i].split] else 0.0) + cases[i].weight];
    }
    assert units[..|units|] == units && cases[..|cases|] == cases;
    r := SplitsInOrder(counts, masses, units, cases);
  }

  lemma SplitTallyIs(counts: Tally<Split>, masses: map<Split, real>, units: seq<Trace>, cases: seq<Trace>, s: Split)
    requires Tallies(counts, units, SplitKey, GroupIdKey) && Masses(masses, cases)
    ensures SplitTallyBy(units, cases)(s)
         == if s in counts then [SplitTally(s, counts[s].0, |counts[s].1|, if s in masses then masses[s] else 0.0)] else []
  {
    GroupMembers(units, SplitKey, s);
    GroupCount(Group(units, SplitKey, s), GroupIdKey);
    hide Group, Keys, Mass;
  }

  method SplitsInOrder(counts: Tally<Split>, masses: map<Split, real>, ghost units: seq<Trace>, ghost cases: seq<Trace>)
      returns (r: seq<SplitTally>)
    requires Tallies(counts, units, SplitKey, GroupIdKey) && Masses(masses, cases)
    ensures r == SplitTallies(units, cases)
  {
    hide Tallies, Masses, SplitTallyBy;
    r := [];
    for i := 0 to |SPLITS|
      invariant r == Gather(SPLITS[..i], SplitTallyBy(units, cases))
    {
      var s := SPLITS[i];
      assert SPLITS[..i + 1][..i] == SPLITS[..i];
      SplitTallyIs(counts, masses, units, cases, s);
      if s in counts {
        r := r + [SplitTally(s, counts[s].0, |counts[s].1|, if s in masses then masses[s] else 0.0)];
      }
    }
    assert SPLITS[..|SPLITS|] == SPLITS;
  }

  lemma {:induction false} SplitsCover(ts: seq<Trace>)
    ensures |Group(ts, SplitKey, Dev)| + |Group(ts, SplitKey, Holdout)| + |Group(ts, SplitKey, Online)| == |ts|
    ensures Mass(Group(ts, SplitKey, Dev)) + Mass(Group(ts, SplitKey, Holdout)) + Mass(Group(ts, SplitKey, Online)) == Mass(ts)
  {
    if ts != [] {
      var front, last := ts[..|ts| - 1], ts[|ts| - 1];
      SplitsCover(front);
      DropLast(ts);
      MassGrows(front, last, Dev);
      MassGrows(front, last, Holdout);
      MassGrows(front, last, Online);
      hide Group;
    }
  }

  function ReplicatesOf(t: SplitTally): int { t.caseReplicates }

  function TallyMass(ts: seq<SplitTally>): real { if ts == [] then 0.0 else TallyMass(ts[..|ts| - 1]) + ts[|ts| - 1].mass }

  lemma NoCases(units: seq<Trace>, cases: seq<Trace>, s: Split)
    requires forall c :: c in cases ==> c in units
    ensures Group(units, SplitKey, s) == [] ==> Group(cases, SplitKey, s) == []
  {
    GroupMembers(units, SplitKey, s);
    GroupMembers(cases, SplitKey, s);
    if Group(cases, SplitKey, s) != [] { assert Group(cases, SplitKey, s)[0] in Group(units, SplitKey, s); }
  }

  lemma AddUp(a: seq<SplitTally>, b: seq<SplitTally>, c: seq<SplitTally>)
    requires |a| <= 1 && |b| <= 1 && |c| <= 1
    ensures Sum(a + b + c, ReplicatesOf) == Sum(a, ReplicatesOf) + Sum(b, ReplicatesOf) + Sum(c, ReplicatesOf)
    ensures TallyMass(a + b + c) == TallyMass(a) + TallyMass(b) + TallyMass(c)
  {
    AddOne(a + b, c);
    AddOne(a, b);
  }

  lemma AddOne(a: seq<SplitTally>, b: seq<SplitTally>)
    requires |b| <= 1
    ensures Sum(a + b, ReplicatesOf) == Sum(a, ReplicatesOf) + Sum(b, ReplicatesOf)
    ensures TallyMass(a + b) == TallyMass(a) + TallyMass(b)
  {
    if b == [] {
      assert a + b == a;
    } else {
      assert (a + b)[..|a|] == a && b[..0] == [];
      assert Sum<SplitTally>([], ReplicatesOf) == 0;
    }
  }

  lemma OneSplit(units: seq<Trace>, cases: seq<Trace>, s: Split)
    requires forall c :: c in cases ==> c in units
    ensures var r := SplitTallyBy(units, cases)(s);
            |r| <= 1 && Sum(r, ReplicatesOf) == |Group(units, SplitKey, s)| && TallyMass(r) == Mass(Group(cases, SplitKey, s))
  {
    NoCases(units, cases, s);
    hide Group, Keys;
    var r := SplitTallyBy(units, cases)(s);
    if r != [] {
      assert r[..0] == [];
      assert Sum<SplitTally>([], ReplicatesOf) == 0;
    }
  }

  /** Every case replicate is tallied in one split, and the masses add up. */
  lemma SplitTalliesConserve(units: seq<Trace>, cases: seq<Trace>)
    requires forall c :: c in cases ==> c in units
    ensures var r := SplitTallies(units, cases); Sum(r, ReplicatesOf) == |units| && TallyMass(r) == Mass(cases)
  {
    SplitsCover(units);
    SplitsCover(cases);
    OneSplit(units, cases, Dev);
    OneSplit(units, cases, Holdout);
    OneSplit(units, cases, Online);
    var f := SplitTallyBy(units, cases);
    SplitsGather(f);
    hide Group, Mass, SplitTallyBy, Gather, Sum, TallyMass;
    AddUp(f(Dev), f(Holdout), f(Online));
  }

  lemma SplitsGather(f: Split -> seq<SplitTally>)
    ensures Gather(SPLITS, f) == f(Dev) + f(Holdout) + f(Online)
  {
    assert SPLITS == [Dev] + [Holdout] + [Online];
    GatherSplit([Dev] + [Holdout], [Online], f);
    GatherSplit([Dev], [Holdout], f);
    GatherOne(Dev, f);
    GatherOne(Holdout, f);
    GatherOne(Online, f);
    hide Gather;
  }

  // ----- slices

  function SliceOf(x: (Text, Text)): Text { x.0 }
  function GroupOfSlice(x: (Text, Text)): Text { x.1 }
  function SlicesBy(t: Trace): seq<(Text, Text)> { Map(s => (s, t.groupId), t.slices) }

  /** Every slice of every case replicate, with the replicate's group. */
  function SliceVisits(units: seq<Trace>): seq<(Text, Text)> { Gather(units, SlicesBy) }

  function SliceTallyBy(visits: seq<(Text, Text)>): Text -> SliceTally {
    s => var g := Group(visits, SliceOf, s); SliceTally(s, |g|, |Keys(g, GroupOfSlice)|)
  }

  /** The slices that occur, in code-unit order. */
  function SliceTallies(units: seq<Trace>): seq<SliceTally> {
    Map(SliceTallyBy(SliceVisits(units)), SortStrings(Keys(SliceVisits(units), SliceOf)))
  }

  lemma VisitsStep(front: seq<(Text, Text)>, t: Trace, k: nat)
    requires k < |t.slices|
    ensures front + SlicesBy(t)[..k + 1] == front + SlicesBy(t)[..k] + [(t.slices[k], t.groupId)]
  {
  }

  /** The inner loop: the slices of one case replicate. */
  method CountTrace(t: Trace, before: Tally<Text>, known: seq<Text>, ghost visits: seq<(Text, Text)>)
      returns (counts: Tally<Text>, order: seq<Text>)
    requires Tallies(before, visits, SliceOf, GroupOfSlice) && known == Keys(visits, SliceOf)
    ensures Tallies(counts, visits + SlicesBy(t), SliceOf, GroupOfSlice) && order == Keys(visits + SlicesBy(t), SliceOf)
  {
    counts, order := before, known;
    ghost var added := SlicesBy(t);
    assert visits + added[..0] == visits;
    for k := 0 to |t.slices|
      invariant Tallies(counts, visits + added[..k], SliceOf, GroupOfSlice) && order == Keys(visits + added[..k], SliceOf)
    {
      VisitsStep(visits, t, k);
      TallyStep(counts, visits + added[..k], (t.slices[k], t.groupId), SliceOf, GroupOfSlice);
      KeysStep(visits + added[..k], (t.slices[k], t.groupId), SliceOf);
      hide Share, Keys, SlicesBy;
      if t.slices[k] !in counts { order := order + [t.slices[k]]; }
      counts := Tallied(counts, t.slices[k], t.groupId);
    }
    assert added[..|t.slices|] == added;
  }

  /** The loop over the case replicates. */
  method CountSlices(units: seq<Trace>) returns (counts: Tally<Text>, order: seq<Text>)
    ensures Tallies(counts, SliceVisits(units), SliceOf, GroupOfSlice) && order == Keys(SliceVisits(units), SliceOf)
  {
    counts, order := map[], [];
    for i := 0 to |units|
      invariant Tallies(counts, SliceVisits(units[..i]), SliceOf, GroupOfSlice) && order == Keys(SliceVisits(units[..i]), SliceOf)
    {
      assert units[..i + 1][..i] == units[..i];
      assert SliceVisits(units[..i + 1]) == SliceVisits(units[..i]) + SlicesBy(units[i]);
      hide Tallies, Keys, SlicesBy, SliceVisits;
      counts, order := CountTrace(units[i], counts, order, SliceVisits(units[..i]));
    }
    assert units[..|units|] == units;
  }

  lemma TallyIs(counts: Tally<Text>, visits: seq<(Text, Text)>, s: Text)
    requires Tallies(counts, visits, SliceOf, GroupOfSlice) && s in Keys(visits, SliceOf)
    ensures s in counts && SliceTally(s, counts[s].0, |counts[s].1|) == SliceTallyBy(visits)(s)
  {
    GroupCount(Group(visits, SliceOf, s), GroupOfSlice);
    hide Group;
  }

  method TalliesInOrder(counts: Tally<Text>, slices: seq<Text>, ghost visits: seq<(Text, Text)>) returns (r: seq<SliceTally>)
    requires Tallies(counts, visits, SliceOf, GroupOfSlice) && forall s :: s in slices ==> s in Keys(visits, SliceOf)
    ensures r == Map(SliceTallyBy(visits), slices)
  {
    hide Keys, Tallies, SliceTallyBy;
    r := [];
    for i := 0 to |slices|
      invariant |r| == i && forall k :: 0 <= k < i ==> r[k] == SliceTallyBy(visits)(slices[k])
    {
      assert slices[i] in slices;
      TallyIs(counts, visits, slices[i]);
      r := r + [SliceTally(slices[i], counts[slices[i]].0, |counts[slices[i]].1|)];
    }
  }

  method TallySlices(units: seq<Trace>) returns (r: seq<SliceTally>)
    ensures r == SliceTallies(units)
  {
    var counts, order := CountSlices(units);
    var slices := SortStrings(order);
    SortPermutes(order, ByKey(Itself));
    SameMembers(slices, order);
    hide SliceVisits, Keys, Sort, Tallies, SliceTallyBy, Map;
    r := TalliesInOrder(counts, slices, SliceVisits(units));
  }
}
