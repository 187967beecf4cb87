/** Dominance, the frontier of passing policies, and the policy nominated from it. */
module Pareto {
  import opened CodeUnits
  import opened Wrappers
  import opened Sorting
  import opened Grouping

  /** The objectives; serving capacity may be unmeasured. */
  datatype Metrics = Metrics(
    score: real, perceived: real, capacity: Option<real>, errorRate: real, ttft: real, latency: real, cost: real)

  datatype Candidate = Candidate(policyId: Text, metrics: Metrics)

  predicate CapacityNeverWorse(a: Metrics, b: Metrics) {
    a.capacity.Some? && b.capacity.Some? && a.capacity.value >= b.capacity.value
  }

  predicate NeverWorse(a: Metrics, b: Metrics, capacityRequired: bool) {
    && a.score >= b.score && a.perceived >= b.perceived && (capacityRequired ==> CapacityNeverWorse(a, b))
    && a.errorRate <= b.errorRate && a.ttft <= b.ttft && a.latency <= b.latency && a.cost <= b.cost
  }

  predicate StrictlyBetter(a: Metrics, b: Metrics, capacityRequired: bool) {
    || a.score > b.score || a.perceived > b.perceived
    || (capacityRequired && a.capacity.Some? && b.capacity.Some? && a.capacity.value > b.capacity.value)
    || a.errorRate < b.errorRate || a.ttft < b.ttft || a.latency < b.latency || a.cost < b.cost
  }

  predicate Dominates(a: Metrics, b: Metrics, capacityRequired: bool) {
    NeverWorse(a, b, capacityRequired) && StrictlyBetter(a, b, capacityRequired)
  }

  /** Dominance is a strict partial order, whether or not capacity is measured. */
  lemma StrictPartialOrder(a: Metrics, b: Metrics, c: Metrics, q: bool)
    ensures !Dominates(a, a, q)
    ensures Dominates(a, b, q) ==> !Dominates(b, a, q)
    ensures Dominates(a, b, q) && Dominates(b, c, q) ==> Dominates(a, c, q)
  {
  }

  /** objectiveSignature: the objectives dominance looks at. */
  function Signature(m: Metrics, capacityRequired: bool): Metrics {
    if capacityRequired then m else m.(capacity := None)
  }

  lemma SignatureDecides(a: Metrics, a': Metrics, b: Metrics, b': Metrics, q: bool)
    requires Signature(a, q) == Signature(a', q) && Signature(b, q) == Signature(b', q)
    ensures Dominates(a, b, q) == Dominates(a', b', q)
  {
  }

  // ----- the frontier

  predicate Dominated(c: Candidate, cs: seq<Candidate>, q: bool) {
    exists i :: 0 <= i < |cs| && Dominates(cs[i].metrics, c.metrics, q)
  }

  function SignatureBy(q: bool): Candidate -> Metrics { (c: Candidate) => Signature(c.metrics, q) }
  function FirstId(cs: seq<Candidate>): Text { if cs == [] then [] else cs[0].policyId }

  /** One pass over the signature groups' leaders. */
  method SomeDominates(groups: seq<seq<Candidate>>, k: nat, q: bool) returns (found: bool)
    requires k < |groups| && forall i :: 0 <= i < |groups| ==> groups[i] != []
    ensures found <==> LeaderDominated(groups, k, q)
  {
    for i := 0 to |groups|
      invariant forall j :: 0 <= j < i && j != k ==> !Dominates(groups[j][0].metrics, groups[k][0].metrics, q)
    {
      if i != k && Dominates(groups[i][0].metrics, groups[k][0].metrics, q) { return true; }
    }
    return false;
  }

  function GroupAt(passers: seq<Candidate>, q: bool): Metrics -> seq<Candidate> { s => Group(passers, SignatureBy(q), s) }

  /** The group of one signature: its passers, each as often as it passed. */
  lemma GroupFacts(passers: seq<Candidate>, q: bool, s: Metrics)
    ensures forall c :: c in GroupAt(passers, q)(s) <==> c in passers && Signature(c.metrics, q) == s
    ensures forall c :: c in GroupAt(passers, q)(s) ==> multiset(GroupAt(passers, q)(s))[c] == multiset(passers)[c]
    ensures s in Keys(passers, SignatureBy(q)) ==> GroupAt(passers, q)(s) != []
  {
    hide Signature;
    GroupMembers(passers, SignatureBy(q), s);
    GroupCounts(passers, SignatureBy(q), s);
  }

  /** The signatures of the passers, each once, in some order. */
  ghost predicate Signatures(ks: seq<Metrics>, passers: seq<Candidate>, q: bool) {
    NoDuplicates(ks) && forall k :: k in ks <==> exists c :: c in passers && Signature(c.metrics, q) == k
  }

  /** The groups sorted by their first policy are the groups of the signatures in some order. */
  lemma SortedGroups(passers: seq<Candidate>, q: bool) returns (ks: seq<Metrics>)
    ensures Signatures(ks, passers, q)
    ensures Sort(Map(GroupAt(passers, q), Keys(passers, SignatureBy(q))), ByKey(FirstId)) == Map(GroupAt(passers, q), ks)
    ensures forall i :: 0 <= i < |ks| ==> GroupAt(passers, q)(ks[i]) != []
  {
    hide Signature;
    var keys := Keys(passers, SignatureBy(q));
    var first := s => FirstId(GroupAt(passers, q)(s));
    var le := ByKey(first);
    ks := Sort(keys, le);
    KeysAre(passers, SignatureBy(q));
    KeysDistinct(passers, SignatureBy(q));
    SortPermutes(keys, le);
    SameMembers(ks, keys);
    SortNoDuplicates(keys, le);
    SortMap(GroupAt(passers, q), keys, le, ByKey(FirstId));
    forall k ensures k in ks <==> exists c :: c in passers && Signature(c.metrics, q) == k {
      if c :| c in passers && Signature(c.metrics, q) == k { assert SignatureBy(q)(c) in keys; }
    }
    forall i | 0 <= i < |ks| ensures GroupAt(passers, q)(ks[i]) != [] {
      assert ks[i] in ks;
      GroupFacts(passers, q, ks[i]);
    }
  }

  predicate LeaderDominated(groups: seq<seq<Candidate>>, k: nat, q: bool)
    requires k < |groups| && forall i :: 0 <= i < |groups| ==> groups[i] != []
  {
    exists i :: 0 <= i < |groups| && i != k && Dominates(groups[i][0].metrics, groups[k][0].metrics, q)
  }

  /** A group's leader is dominated by another leader exactly when its members are dominated by some passer. */
  lemma LeaderDecides(ks: seq<Metrics>, groups: seq<seq<Candidate>>, passers: seq<Candidate>, k: nat, c: Candidate, q: bool)
    requires Signatures(ks, passers, q) && groups == Map(GroupAt(passers, q), ks)
    requires (forall i :: 0 <= i < |groups| ==> groups[i] != []) && k < |groups| && c in groups[k]
    ensures LeaderDominated(groups, k, q) <==> Dominated(c, passers, q)
  {
    hide Dominates, Signature;
    GroupFacts(passers, q, ks[k]);
    assert groups[k][0] in groups[k];
    if LeaderDominated(groups, k, q) {
      var i :| 0 <= i < |groups| && i != k && Dominates(groups[i][0].metrics, groups[k][0].metrics, q);
      GroupFacts(passers, q, ks[i]);
      assert groups[i][0] in groups[i];
      SignatureDecides(groups[i][0].metrics, groups[i][0].metrics, groups[k][0].metrics, c.metrics, q);
      var j :| 0 <= j < |passers| && passers[j] == groups[i][0];
      assert Dominates(passers[j].metrics, c.metrics, q);
    }
    if Dominated(c, passers, q) {
      var j :| 0 <= j < |passers| && Dominates(passers[j].metrics, c.metrics, q);
      var d := passers[j];
      Grouped(ks, groups, passers, d, q);
      var i :| 0 <= i < |groups| && d in groups[i];
      GroupFacts(passers, q, ks[i]);
      assert groups[i][0] in groups[i];
      SignatureDecides(groups[i][0].metrics, d.metrics, groups[k][0].metrics, c.metrics, q);
      StrictPartialOrder(groups[k][0].metrics, groups[k][0].metrics, groups[k][0].metrics, q);
    }
  }

  /** boundedParetoFrontier: exactly the passers no passer dominates, each as often as it passed. */
  method ParetoFrontier(passers: seq<Candidate>, q: bool) returns (frontier: seq<Candidate>)
    ensures forall c :: c in frontier <==> c in passers && !Dominated(c, passers, q)
    ensures forall c :: c in frontier ==> multiset(frontier)[c] == multiset(passers)[c]
  {
    var keys, bySignature := GroupBy(passers, SignatureBy(q));
    var groups := seq(|keys|, i requires 0 <= i < |keys| => bySignature[keys[i]]);
    assert groups == Map(GroupAt(passers, q), keys);
    var sorted := Sort(groups, ByKey(FirstId));
    ghost var ks := SortedGroups(passers, q);
    hide Sort, Dominates, Keys, Group, Signature, Dominated, LeaderDominated;
    frontier := [];
    for k := 0 to |sorted|
      invariant forall c :: c in frontier ==> !Dominated(c, passers, q) && exists i :: 0 <= i < k && c in sorted[i]
      invariant forall i, c :: 0 <= i < k && c in sorted[i] && !Dominated(c, passers, q) ==> c in frontier
      invariant forall c :: c in frontier ==> multiset(frontier)[c] == multiset(passers)[c]
    {
      var dominated := SomeDominates(sorted, k, q);
      forall c | c in sorted[k] ensures dominated <==> Dominated(c, passers, q) { LeaderDecides(ks, sorted, passers, k, c, q); }
      if !dominated {
        GroupJoins(ks, sorted, passers, k, frontier, q);
        frontier := frontier + sorted[k];
      }
    }
    forall c ensures c in passers <==> exists i :: 0 <= i < |sorted| && c in sorted[i] { Grouped(ks, sorted, passers, c, q); }
  }

  lemma Grouped(ks: seq<Metrics>, groups: seq<seq<Candidate>>, passers: seq<Candidate>, c: Candidate, q: bool)
    requires Signatures(ks, passers, q) && groups == Map(GroupAt(passers, q), ks)
    ensures c in passers <==> exists i :: 0 <= i < |groups| && c in groups[i]
  {
    hide Signature;
    if c in passers {
      assert Signature(c.metrics, q) in ks;
      var i :| 0 <= i < |ks| && ks[i] == Signature(c.metrics, q);
      GroupFacts(passers, q, ks[i]);
      assert c in groups[i];
    }
    if i :| 0 <= i < |groups| && c in groups[i] { GroupFacts(passers, q, ks[i]); }
  }

  lemma GroupJoins(ks: seq<Metrics>, groups: seq<seq<Candidate>>, passers: seq<Candidate>, k: nat, frontier: seq<Candidate>, q: bool)
    requires Signatures(ks, passers, q) && groups == Map(GroupAt(passers, q), ks) && k < |groups|
    requires forall c :: c in frontier ==> exists i :: 0 <= i < k && c in groups[i]
    requires forall c :: c in frontier ==> multiset(frontier)[c] == multiset(passers)[c]
    ensures forall c :: c in frontier + groups[k] ==> multiset(frontier + groups[k])[c] == multiset(passers)[c]
  {
    hide Signature, Group;
    GroupFacts(passers, q, ks[k]);
    forall c | c in frontier ensures c !in groups[k] {
      var i :| 0 <= i < k && c in groups[i];
      GroupFacts(passers, q, ks[i]);
    }
    forall c | c in frontier + groups[k] ensures multiset(frontier + groups[k])[c] == multiset(passers)[c] {
      assert multiset(frontier + groups[k])[c] == multiset(frontier)[c] + multiset(groups[k])[c];
      assert c in frontier || c in groups[k];
      if c in frontier { assert c !in multiset(groups[k]); } else { assert c !in multiset(frontier); }
    }
  }

  // ----- existence

  /** How many passers dominate c. */
  function Dominators(cs: seq<Candidate>, c: Candidate, q: bool): seq<Candidate> {
    Gather(cs, DominatorOf(c, q))
  }

  function DominatorOf(c: Candidate, q: bool): Candidate -> seq<Candidate> {
    (d: Candidate) => if Dominates(d.metrics, c.metrics, q) then [d] else []
  }

  lemma {:induction false} FewerDominators(cs: seq<Candidate>, c: Candidate, d: Candidate, q: bool)
    requires Dominates(d.metrics, c.metrics, q)
    ensures |Dominators(cs, d, q)| <= |Dominators(cs, c, q)|
    ensures d in cs ==> |Dominators(cs, d, q)| < |Dominators(cs, c, q)|
  {
    if cs != [] {
      var n := |cs| - 1;
      DropLast(cs);
      FewerDominators(cs[..n], c, d, q);
      StrictPartialOrder(cs[n].metrics, d.metrics, c.metrics, q);
      StrictPartialOrder(d.metrics, d.metrics, d.metrics, q);
      assert DominatorOf(d, q)(cs[n]) != [] ==> DominatorOf(c, q)(cs[n]) != [];
    }
  }

  /** Every passer is on the frontier or dominated by one on it; hence the frontier is not empty when there are passers. */
  lemma {:induction false} FrontierAbove(cs: seq<Candidate>, c: Candidate, q: bool) returns (f: Candidate)
    requires c in cs
    ensures f in cs && !Dominated(f, cs, q)
    ensures f == c || Dominates(f.metrics, c.metrics, q)
    decreases |Dominators(cs, c, q)|
  {
    if Dominated(c, cs, q) {
      var i :| 0 <= i < |cs| && Dominates(cs[i].metrics, c.metrics, q);
      FewerDominators(cs, c, cs[i], q);
      f := FrontierAbove(cs, cs[i], q);
      StrictPartialOrder(f.metrics, cs[i].metrics, c.metrics, q);
    } else {
      f := c;
    }
  }

  // ----- selection

  /** Cost, then p95 latency. */
  predicate CheaperOrEqual(a: Candidate, b: Candidate) {
    a.metrics.cost < b.metrics.cost || (a.metrics.cost == b.metrics.cost && a.metrics.latency <= b.metrics.latency)
  }

  /** Cost, p95 latency, policy id. */
  function SelectionOrder(): (Candidate, Candidate) -> bool {
    (a: Candidate, b: Candidate) =>
      || a.metrics.cost < b.metrics.cost
      || (a.metrics.cost == b.metrics.cost && a.metrics.latency < b.metrics.latency)
      || (a.metrics.cost == b.metrics.cost && a.metrics.latency == b.metrics.latency && Compare(a.policyId, b.policyId) <= 0)
  }

  lemma SelectionPreorder()
    ensures Preorder(SelectionOrder())
  {
    var le := SelectionOrder();
    forall a, b ensures le(a, b) || le(b, a) { CompareAntisymmetric(a.policyId, b.policyId); }
    forall a, b, c | le(a, b) && le(b, c) ensures le(a, c) {
      if Compare(a.policyId, b.policyId) <= 0 && Compare(b.policyId, c.policyId) <= 0 {
        LeTransitive(a.policyId, b.policyId, c.policyId);
      }
    }
  }

  /** The nominated policy: least in cost and p95 latency over all passers, by id among equals on the frontier. */
  method NominatePolicy(passers: seq<Candidate>, q: bool) returns (selected: Option<Candidate>)
    ensures selected.None? <==> passers == []
    ensures selected.Some? ==>
              && selected.value in passers && !Dominated(selected.value, passers, q)
              && (forall c :: c in passers ==> CheaperOrEqual(selected.value, c))
              && (forall c :: c in passers && !Dominated(c, passers, q) && CheaperOrEqual(c, selected.value) ==>
                    Compare(selected.value.policyId, c.policyId) <= 0)
  {
    var frontier := ParetoFrontier(passers, q);
    var ordered := Sort(frontier, SelectionOrder());
    SortPermutes(frontier, SelectionOrder());
    SelectionPreorder();
    SortSorts(frontier, SelectionOrder());
    hide Sort, Dominated, Dominates;
    SameMembers(ordered, frontier);
    if |ordered| == 0 {
      if passers != [] { var f := FrontierAbove(passers, passers[0], q); }
      return None;
    }
    assert ordered[0] in ordered;
    forall c | c in passers ensures CheaperOrEqual(ordered[0], c) {
      var f := FrontierAbove(passers, c, q);
      LeastFirst(ordered, f);
      DominanceIsCheaper(f, c, q);
    }
    forall c | c in passers && !Dominated(c, passers, q) && CheaperOrEqual(c, ordered[0])
      ensures Compare(ordered[0].policyId, c.policyId) <= 0 {
      LeastFirst(ordered, c);
    }
    return Some(ordered[0]);
  }

  lemma LeastFirst(ordered: seq<Candidate>, c: Candidate)
    requires Sorted(ordered, SelectionOrder()) && c in ordered
    ensures SelectionOrder()(ordered[0], c)
  {
    CompareZero(c.policyId, c.policyId);
    var i :| 0 <= i < |ordered| && ordered[i] == c;
    if i > 0 { assert SelectionOrder()(ordered[0], ordered[i]); }
  }

  lemma DominanceIsCheaper(f: Candidate, c: Candidate, q: bool)
    requires f == c || Dominates(f.metrics, c.metrics, q)
    ensures CheaperOrEqual(f, c)
  {
  }
}
