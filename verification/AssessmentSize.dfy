/** The pre-run estimate really bounds the decision: nodes and replay rows as the contract's snapshot counts them. */
module AssessmentSize {
  import opened CodeUnits
  import opened Wrappers
  import opened Sorting
  import opened Grouping
  import opened EvidenceModel
  import opened AssessmentContract
  import opened AssessmentEngine
  import opened AssessmentRows
  import opened AssessmentCandidate
  import opened AssessmentDecision

  // ----- plain data

  /** A JSON-like value without its keys: arrays with the limit of their key, and Rows under the key that counts replay rows. */
  datatype Tree = Leaf | List(items: seq<Tree>, limit: nat) | Rows(rows: seq<Tree>) | Fields(fields: seq<Tree>)

  const MAX_DEPTH: nat := 20
  const MAX_KEYS: nat := 64
  const MAX_LIST: nat := 256

  /** Depth, array lengths and key counts within the limits, for a value at that depth. */
  predicate Shaped(t: Tree, depth: nat)
    decreases t
  {
    && depth <= MAX_DEPTH
    && match t
       case Leaf => true
       case List(items, limit) => |items| <= limit && forall i :: 0 <= i < |items| ==> Shaped(items[i], depth + 1)
       case Rows(rows) => |rows| <= MAX_REPLAY_ROWS && forall i :: 0 <= i < |rows| ==> Shaped(rows[i], depth + 1)
       case Fields(fields) => |fields| <= MAX_KEYS && forall i :: 0 <= i < |fields| ==> Shaped(fields[i], depth + 1)
  }

  predicate AllShaped(ts: seq<Tree>, depth: nat) { forall i :: 0 <= i < |ts| ==> Shaped(ts[i], depth) }

  function Nodes(t: Tree): nat
    decreases t, 1
  {
    match t
    case Leaf => 1
    case List(items, _) => 1 + NodesIn(items)
    case Rows(rows) => 1 + NodesIn(rows)
    case Fields(fields) => 1 + NodesIn(fields)
  }

  function NodesIn(ts: seq<Tree>): nat
    decreases ts, 0
  {
    if ts == [] then 0 else NodesIn(ts[..|ts| - 1]) + Nodes(ts[|ts| - 1])
  }

  function RowCount(t: Tree): nat
    decreases t, 1
  {
    match t
    case Leaf => 0
    case List(items, _) => RowsIn(items)
    case Rows(rows) => |rows| + RowsIn(rows)
    case Fields(fields) => RowsIn(fields)
  }

  function RowsIn(ts: seq<Tree>): nat
    decreases ts, 0
  {
    if ts == [] then 0 else RowsIn(ts[..|ts| - 1]) + RowCount(ts[|ts| - 1])
  }

  // ----- the snapshot walk

  /** The counters shared by the recursive walk. */
  class SnapshotState {
    var nodes: nat
    var replayRows: nat

    constructor ()
      ensures nodes == 0 && replayRows == 0
    {
      nodes, replayRows := 0, 0;
    }

    predicate Within()
      reads this
    {
      nodes <= MAX_NODES && replayRows <= MAX_REPLAY_ROWS
    }

    /** snapshotValue: counts a node before anything else, and the rows of a replay array before its elements. */
    method Snapshot(t: Tree, depth: nat) returns (ok: bool)
      requires Within()
      modifies this
      ensures ok <==> old(nodes) + Nodes(t) <= MAX_NODES && old(replayRows) + RowCount(t) <= MAX_REPLAY_ROWS && Shaped(t, depth)
      ensures ok ==> nodes == old(nodes) + Nodes(t) && replayRows == old(replayRows) + RowCount(t)
      decreases t, 1
    {
      nodes := nodes + 1;
      if nodes > MAX_NODES { return false; }
      if depth > MAX_DEPTH { return false; }
      match t {
        case Leaf => ok := true;
        case List(items, limit) =>
          if |items| > limit { return false; }
          ok := SnapshotAll(items, depth + 1);
        case Fields(fields) =>
          if |fields| > MAX_KEYS { return false; }
          ok := SnapshotAll(fields, depth + 1);
        case Rows(rows) =>
          if |rows| > MAX_REPLAY_ROWS { return false; }
          replayRows := replayRows + |rows|;
          if replayRows > MAX_REPLAY_ROWS { return false; }
          ok := SnapshotAll(rows, depth + 1);
      }
    }

    method SnapshotAll(ts: seq<Tree>, depth: nat) returns (ok: bool)
      requires Within()
      modifies this
      ensures ok <==> old(nodes) + NodesIn(ts) <= MAX_NODES && old(replayRows) + RowsIn(ts) <= MAX_REPLAY_ROWS && AllShaped(ts, depth)
      ensures ok ==> nodes == old(nodes) + NodesIn(ts) && replayRows == old(replayRows) + RowsIn(ts)
      decreases ts, 0
    {
      for i := 0 to |ts|
        invariant Within() && nodes == old(nodes) + NodesIn(ts[..i]) && replayRows == old(replayRows) + RowsIn(ts[..i])
        invariant forall k :: 0 <= k < i ==> Shaped(ts[k], depth)
      {
        assert ts[..i + 1][..i] == ts[..i];
        PrefixCounts(ts, i + 1);
        var one := Snapshot(ts[i], depth);
        if !one { return false; }
      }
      assert ts[..|ts|] == ts;
      return true;
    }
  }

  lemma {:induction false} PrefixCounts(ts: seq<Tree>, i: nat)
    requires i <= |ts|
    ensures NodesIn(ts[..i]) <= NodesIn(ts) && RowsIn(ts[..i]) <= RowsIn(ts)
    decreases |ts| - i
  {
    if i == |ts| {
      assert ts[..i] == ts;
    } else {
      assert ts[..i + 1][..i] == ts[..i];
      PrefixCounts(ts, i + 1);
    }
  }

  // ----- decisions as data

  function Leaves(k: nat): seq<Tree> { seq(k, _ => Leaf) }

  function MetricTree(m: Metric): Tree { Fields(if m.value.None? then Leaves(3) else Leaves(2)) }

  function MetricsTree(m: Metrics): Tree {
    Fields([MetricTree(m.meanScore), MetricTree(m.failureRate), MetricTree(m.ttft), MetricTree(m.endToEnd),
            MetricTree(m.cost), MetricTree(m.evidenceCoverage), MetricTree(m.serviceCapacity)])
  }

  function GateTree(g: Gate): Tree { Fields(if g.actual.None? then Leaves(7) else Leaves(6)) }

  function RowTree(r: ReplayRow): Tree { Fields(Leaves(12) + [List(Leaves(|r.attempted|), MAX_ATTEMPTS), List(Leaves(|r.slices|), MAX_SLICES)]) }

  function PredicateTree(p: Predicate): Tree { Fields(Leaves(4)) }
  function PolicyTree(p: Policy): Tree { Fields(Leaves(11) + [List(Map(PredicateTree, p.body.predicates), MAX_LIST)]) }

  function InferenceTree(i: Option<Inference>): Tree { if i.None? then Leaf else Fields(Leaves(10) + [Fields(Leaves(2))]) }

  function SliceTree(s: (Text, nat)): Tree { Fields(Leaves(2)) }
  function CoverageTree(c: Coverage): Tree { Fields(Leaves(7) + [List(Map(SliceTree, c.sliceGroups), MAX_CRITICAL_SLICES)]) }

  function CandidateTree(c: Candidate): Tree {
    Fields([PolicyTree(c.policy), Leaf, Leaf, Rows(Map(RowTree, c.replay)), MetricsTree(c.metrics), List(Map(GateTree, c.gates), MAX_GATES),
            InferenceTree(c.inference), CoverageTree(c.coverage), List(Leaves(|c.insufficiency|), MAX_REASONS), List(Leaves(|c.rejection|), MAX_REASONS)])
  }

  function SelectedTree(p: Option<Policy>): Tree { if p.None? then Leaf else PolicyTree(p.value) }

  /** The decision as handed to the contract: its plain fields, its lists, and its candidate results. */
  function DecisionTree(d: Decision): Tree {
    Fields(Leaves(13) + [Fields(Leaves(4)), CandidateTree(d.control), List(Map(CandidateTree, d.candidates), MAX_CANDIDATES), SelectedTree(d.selected),
                         List(Leaves(|d.staleReasons|), MAX_REASONS), List(Leaves(|d.warnings|), MAX_REASONS), List(Leaves(|d.unavailable|), MAX_REASONS)])
  }

  // ----- counting

  lemma {:induction false} NodesJoin(xs: seq<Tree>, ys: seq<Tree>)
    ensures NodesIn(xs + ys) == NodesIn(xs) + NodesIn(ys) && RowsIn(xs + ys) == RowsIn(xs) + RowsIn(ys)
  {
    if ys == [] {
      assert xs + ys == xs;
    } else {
      var n := |ys| - 1;
      assert (xs + ys)[..|xs| + n] == xs + ys[..n];
      NodesJoin(xs, ys[..n]);
    }
  }

  lemma NodesOne(t: Tree)
    ensures NodesIn([t]) == Nodes(t) && RowsIn([t]) == RowCount(t)
  {
    assert [t][..0] == [];
  }

  lemma NodesCons(t: Tree, ts: seq<Tree>)
    ensures NodesIn([t] + ts) == Nodes(t) + NodesIn(ts) && RowsIn([t] + ts) == RowCount(t) + RowsIn(ts)
  {
    NodesJoin([t], ts);
    NodesOne(t);
  }

  lemma {:induction false} NodesLeaves(k: nat)
    ensures NodesIn(Leaves(k)) == k && RowsIn(Leaves(k)) == 0
  {
    if k > 0 {
      assert Leaves(k)[..k - 1] == Leaves(k - 1);
      NodesLeaves(k - 1);
    }
  }

  lemma Times(n: nat, k: nat)
    ensures (n + 1) * k == n * k + k
  {
  }

  /** A list whose elements are bounded. */
  lemma {:induction false} NodesBounded<A(!new)>(xs: seq<A>, f: A -> Tree, k: nat)
    requires forall x :: x in xs ==> Nodes(f(x)) <= k
    ensures NodesIn(Map(f, xs)) <= |xs| * k
  {
    if xs != [] {
      var n := |xs| - 1;
      DropLast(xs);
      assert xs[n] in xs && Map(f, xs)[..n] == Map(f, xs[..n]);
      hide Nodes;
      NodesBounded(xs[..n], f, k);
      Times(n, k);
    }
  }

  lemma {:induction false} NoRows<A(!new)>(xs: seq<A>, f: A -> Tree)
    requires forall x :: x in xs ==> RowCount(f(x)) == 0
    ensures RowsIn(Map(f, xs)) == 0
  {
    if xs != [] {
      var n := |xs| - 1;
      DropLast(xs);
      assert xs[n] in xs && Map(f, xs)[..n] == Map(f, xs[..n]);
      NoRows(xs[..n], f);
    }
  }

  lemma LeafRecord(k: nat)
    ensures Nodes(Fields(Leaves(k))) == k + 1 && RowCount(Fields(Leaves(k))) == 0
    ensures forall limit :: Nodes(List(Leaves(k), limit)) == k + 1 && RowCount(List(Leaves(k), limit)) == 0
  {
    NodesLeaves(k);
  }

  lemma MetricSize(m: Metric)
    ensures Nodes(MetricTree(m)) <= 4 && RowCount(MetricTree(m)) == 0
  {
    LeafRecord(2);
    LeafRecord(3);
  }

  lemma MetricsSize(m: Metrics)
    ensures Nodes(MetricsTree(m)) <= 29 && RowCount(MetricsTree(m)) == 0
  {
    var a, b, c, d, e, f, g := MetricTree(m.meanScore), MetricTree(m.failureRate), MetricTree(m.ttft), MetricTree(m.endToEnd),
                               MetricTree(m.cost), MetricTree(m.evidenceCoverage), MetricTree(m.serviceCapacity);
    MetricSize(m.meanScore); MetricSize(m.failureRate); MetricSize(m.ttft); MetricSize(m.endToEnd);
    MetricSize(m.cost); MetricSize(m.evidenceCoverage); MetricSize(m.serviceCapacity);
    hide Nodes, RowCount, NodesIn, RowsIn, MetricTree;
    SevenFields(a, b, c, d, e, f, g);
  }

  lemma SevenFields(a: Tree, b: Tree, c: Tree, d: Tree, e: Tree, f: Tree, g: Tree)
    ensures Nodes(Fields([a, b, c, d, e, f, g])) == 1 + Nodes(a) + Nodes(b) + Nodes(c) + Nodes(d) + Nodes(e) + Nodes(f) + Nodes(g)
    ensures RowCount(Fields([a, b, c, d, e, f, g]))
            == RowCount(a) + RowCount(b) + RowCount(c) + RowCount(d) + RowCount(e) + RowCount(f) + RowCount(g)
  {
    hide Nodes, RowCount, NodesIn, RowsIn;
    ThreeNodes(a, b, c);
    ThreeNodes(d, e, f);
    assert [a, b, c, d, e, f, g] == [a, b, c] + [d, e, f] + [g];
    NodesJoin([a, b, c], [d, e, f]);
    NodesJoin([a, b, c] + [d, e, f], [g]);
    NodesOne(g);
    FieldsNodes([a, b, c, d, e, f, g]);
  }

  lemma ThreeNodes(a: Tree, b: Tree, c: Tree)
    ensures NodesIn([a, b, c]) == Nodes(a) + Nodes(b) + Nodes(c) && RowsIn([a, b, c]) == RowCount(a) + RowCount(b) + RowCount(c)
  {
    hide Nodes, RowCount, NodesIn, RowsIn;
    assert [a, b, c] == [a] + [b] + [c];
    NodesJoin([a], [b]);
    NodesJoin([a] + [b], [c]);
    NodesOne(a);
    NodesOne(b);
    NodesOne(c);
  }

  lemma FieldsNodes(ts: seq<Tree>)
    ensures Nodes(Fields(ts)) == 1 + NodesIn(ts) && RowCount(Fields(ts)) == RowsIn(ts)
  {
  }

  lemma GateSize(g: Gate)
    ensures Nodes(GateTree(g)) <= 8 && RowCount(GateTree(g)) == 0
  {
    LeafRecord(6);
    LeafRecord(7);
  }

  /** Leaves followed by one more field. */
  lemma LeavesThen(k: nat, t: Tree)
    ensures Nodes(Fields(Leaves(k) + [t])) == 1 + k + Nodes(t) && RowCount(Fields(Leaves(k) + [t])) == RowCount(t)
  {
    NodesJoin(Leaves(k), [t]);
    NodesLeaves(k);
    NodesOne(t);
  }

  lemma RowSize(r: ReplayRow)
    requires |r.attempted| <= MAX_ATTEMPTS && |r.slices| <= MAX_SLICES
    ensures Nodes(RowTree(r)) <= 128 && RowCount(RowTree(r)) == 0
  {
    var a, s := List(Leaves(|r.attempted|), MAX_ATTEMPTS), List(Leaves(|r.slices|), MAX_SLICES);
    LeafRecord(|r.attempted|);
    LeafRecord(|r.slices|);
    NodesJoin(Leaves(12), [a, s]);
    NodesLeaves(12);
    assert [a, s] == [a] + [s];
    NodesCons(a, [s]);
    NodesOne(s);
  }

  lemma PolicySize(p: Policy)
    requires |p.body.predicates| <= 1
    ensures Nodes(PolicyTree(p)) <= 18 && RowCount(PolicyTree(p)) == 0
  {
    var ps := p.body.predicates;
    LeafRecord(4);
    NodesBounded(ps, PredicateTree, 5);
    NoRows(ps, PredicateTree);
    LeavesThen(11, List(Map(PredicateTree, ps), MAX_LIST));
  }

  lemma InferenceSize(i: Option<Inference>)
    ensures Nodes(InferenceTree(i)) <= 14 && RowCount(InferenceTree(i)) == 0
  {
    LeafRecord(2);
    LeavesThen(10, Fields(Leaves(2)));
  }

  lemma CoverageSize(c: Coverage)
    ensures Nodes(CoverageTree(c)) <= 9 + 3 * |c.sliceGroups| && RowCount(CoverageTree(c)) == 0
  {
    LeafRecord(2);
    NodesBounded(c.sliceGroups, SliceTree, 3);
    NoRows(c.sliceGroups, SliceTree);
    LeavesThen(7, List(Map(SliceTree, c.sliceGroups), MAX_CRITICAL_SLICES));
  }

  lemma RowsSize(rows: seq<ReplayRow>)
    requires forall r :: r in rows ==> |r.attempted| <= MAX_ATTEMPTS && |r.slices| <= MAX_SLICES
    ensures Nodes(Rows(Map(RowTree, rows))) <= 1 + |rows| * 128 && RowCount(Rows(Map(RowTree, rows))) == |rows|
  {
    forall r | r in rows ensures Nodes(RowTree(r)) <= 128 && RowCount(RowTree(r)) == 0 { RowSize(r); }
    NodesBounded(rows, RowTree, 128);
    NoRows(rows, RowTree);
  }

  lemma GatesSize(gs: seq<Gate>)
    ensures Nodes(List(Map(GateTree, gs), MAX_GATES)) <= 1 + |gs| * 8 && RowCount(List(Map(GateTree, gs), MAX_GATES)) == 0
  {
    forall g | g in gs ensures Nodes(GateTree(g)) <= 8 && RowCount(GateTree(g)) == 0 { GateSize(g); }
    NodesBounded(gs, GateTree, 8);
    NoRows(gs, GateTree);
  }

  /** The list lengths of a result with s critical slices. */
  predicate Small(c: Candidate, s: nat) {
    && |c.policy.body.predicates| <= 1 && |c.coverage.sliceGroups| <= s && |c.gates| <= 9 + s
    && |c.insufficiency| <= 10 + s && |c.rejection| <= MAX_REASONS
    && forall r :: r in c.replay ==> |r.attempted| <= MAX_ATTEMPTS && |r.slices| <= MAX_SLICES
  }

  lemma CandidateSize(c: Candidate, s: nat)
    requires Small(c, s)
    ensures Nodes(CandidateTree(c)) <= 512 + s * 16 + |c.replay| * 128 && RowCount(CandidateTree(c)) == |c.replay|
  {
    PolicySize(c.policy);
    RowsSize(c.replay);
    MetricsSize(c.metrics);
    GatesSize(c.gates);
    InferenceSize(c.inference);
    CoverageSize(c.coverage);
    LeafRecord(|c.insufficiency|);
    LeafRecord(|c.rejection|);
    var rows, gates, texts, reasons := Rows(Map(RowTree, c.replay)), List(Map(GateTree, c.gates), MAX_GATES), List(Leaves(|c.insufficiency|), MAX_REASONS), List(Leaves(|c.rejection|), MAX_REASONS);
    assert Nodes(Leaf) == 1 && RowCount(Leaf) == 0;
    hide Nodes, RowCount, NodesIn, RowsIn, PolicyTree, MetricsTree, InferenceTree, CoverageTree;
    TenFields(PolicyTree(c.policy), Leaf, Leaf, rows, MetricsTree(c.metrics), gates, InferenceTree(c.inference), CoverageTree(c.coverage), texts, reasons);
  }

  lemma TenFields(a: Tree, b: Tree, c: Tree, d: Tree, e: Tree, f: Tree, g: Tree, h: Tree, i: Tree, j: Tree)
    ensures Nodes(Fields([a, b, c, d, e, f, g, h, i, j]))
            == 1 + Nodes(a) + Nodes(b) + Nodes(c) + Nodes(d) + Nodes(e) + Nodes(f) + Nodes(g) + Nodes(h) + Nodes(i) + Nodes(j)
    ensures RowCount(Fields([a, b, c, d, e, f, g, h, i, j]))
            == RowCount(a) + RowCount(b) + RowCount(c) + RowCount(d) + RowCount(e) + RowCount(f) + RowCount(g) + RowCount(h) + RowCount(i) + RowCount(j)
  {
    hide Nodes, RowCount, NodesIn, RowsIn;
    SevenFields(a, b, c, d, e, f, g);
    FieldsNodes([a, b, c, d, e, f, g]);
    ThreeNodes(h, i, j);
    assert [a, b, c, d, e, f, g, h, i, j] == [a, b, c, d, e, f, g] + [h, i, j];
    NodesJoin([a, b, c, d, e, f, g], [h, i, j]);
    FieldsNodes([a, b, c, d, e, f, g, h, i, j]);
  }

  // ----- the bound

  /** All candidates, each small and with at most `pairs` rows. */
  lemma {:induction false} CandidatesSize(cs: seq<Candidate>, s: nat, pairs: nat)
    requires forall c :: c in cs ==> Small(c, s) && |c.replay| <= pairs
    ensures NodesIn(Map(CandidateTree, cs)) <= |cs| * (512 + s * 16) + |cs| * pairs * 128
    ensures RowsIn(Map(CandidateTree, cs)) <= |cs| * pairs
  {
    if cs != [] {
      var n := |cs| - 1;
      DropLast(cs);
      assert cs[n] in cs && Map(CandidateTree, cs)[..n] == Map(CandidateTree, cs[..n]);
      hide CandidateTree, Small;
      CandidatesSize(cs[..n], s, pairs);
      CandidateSize(cs[n], s);
      StepBound(n, 512 + s * 16, pairs, |cs[n].replay|);
    }
  }

  lemma StepBound(n: nat, k: nat, pairs: nat, rows: nat)
    requires rows <= pairs
    ensures n * k + n * pairs * 128 + k + rows * 128 <= (n + 1) * k + (n + 1) * pairs * 128
    ensures n * pairs + rows <= (n + 1) * pairs
  {
  }

  /** The decision's nodes and rows, part by part. */
  lemma DecisionCounts(d: Decision)
    ensures Nodes(DecisionTree(d))
         == 23 + Nodes(CandidateTree(d.control)) + NodesIn(Map(CandidateTree, d.candidates)) + Nodes(SelectedTree(d.selected))
            + |d.staleReasons| + |d.warnings| + |d.unavailable|
    ensures RowCount(DecisionTree(d))
         == RowCount(CandidateTree(d.control)) + RowsIn(Map(CandidateTree, d.candidates)) + RowCount(SelectedTree(d.selected))
  {
    hide CandidateTree, PolicyTree, SelectedTree, Leaves;
    LeafRecord(4);
    LeafRecord(|d.staleReasons|);
    LeafRecord(|d.warnings|);
    LeafRecord(|d.unavailable|);
    var control, cs, selected := CandidateTree(d.control), Map(CandidateTree, d.candidates), SelectedTree(d.selected);
    var stale, warnings, names := List(Leaves(|d.staleReasons|), MAX_REASONS), List(Leaves(|d.warnings|), MAX_REASONS), List(Leaves(|d.unavailable|), MAX_REASONS);
    assert Nodes(List(cs, MAX_CANDIDATES)) == 1 + NodesIn(cs) && RowCount(List(cs, MAX_CANDIDATES)) == RowsIn(cs);
    var tail := [Fields(Leaves(4)), control, List(cs, MAX_CANDIDATES), selected, stale, warnings, names];
    SevenFields(Fields(Leaves(4)), control, List(cs, MAX_CANDIDATES), selected, stale, warnings, names);
    NodesJoin(Leaves(13), tail);
    NodesLeaves(13);
    assert NodesIn(tail) == Nodes(Fields(tail)) - 1 && RowsIn(tail) == RowCount(Fields(tail));
  }

  lemma SelectedSize(p: Option<Policy>)
    requires p.Some? ==> |p.value.body.predicates| <= 1
    ensures Nodes(SelectedTree(p)) <= 18 && RowCount(SelectedTree(p)) == 0
  {
    if p.Some? { PolicySize(p.value); }
    hide PolicyTree;
  }

  lemma DecisionSize(d: Decision, s: nat, pairs: nat)
    requires Small(d.control, s) && |d.control.replay| <= pairs && forall c :: c in d.candidates ==> Small(c, s) && |c.replay| <= pairs
    requires (d.selected.Some? ==> |d.selected.value.body.predicates| <= 1) && |d.staleReasons| <= MAX_REASONS && |d.warnings| <= MAX_REASONS
    requires |d.unavailable| <= 7
    ensures Nodes(DecisionTree(d)) <= EstimatedNodes(|d.candidates| + 1, s, (|d.candidates| + 1) * pairs)
    ensures RowCount(DecisionTree(d)) <= (|d.candidates| + 1) * pairs
  {
    hide Nodes, RowCount, NodesIn, RowsIn, DecisionTree, CandidateTree, SelectedTree, Small, Map;
    DecisionCounts(d);
    CandidateSize(d.control, s);
    CandidatesSize(d.candidates, s, pairs);
    SelectedSize(d.selected);
    StepBound(|d.candidates|, 512 + s * 16, pairs, |d.control.replay|);
  }

  // ----- shape

  lemma LeavesShaped(k: nat, depth: nat)
    requires depth <= MAX_DEPTH
    ensures AllShaped(Leaves(k), depth)
  {
  }

  lemma MapShaped<A(!new)>(xs: seq<A>, f: A -> Tree, depth: nat)
    requires forall x :: x in xs ==> Shaped(f(x), depth)
    ensures AllShaped(Map(f, xs), depth)
  {
    hide Shaped;
    forall i | 0 <= i < |xs| ensures Shaped(Map(f, xs)[i], depth) { assert xs[i] in xs; }
  }

  lemma JoinShaped(xs: seq<Tree>, ys: seq<Tree>, depth: nat)
    requires AllShaped(xs, depth) && AllShaped(ys, depth)
    ensures AllShaped(xs + ys, depth)
  {
    hide Shaped;
  }

  lemma LeafListShaped(k: nat, limit: nat, depth: nat)
    requires depth < MAX_DEPTH && k <= limit
    ensures Shaped(List(Leaves(k), limit), depth) && (k <= MAX_KEYS ==> Shaped(Fields(Leaves(k)), depth))
  {
    LeavesShaped(k, depth + 1);
  }

  lemma FieldsShaped(fields: seq<Tree>, depth: nat)
    requires depth < MAX_DEPTH && |fields| <= MAX_KEYS && AllShaped(fields, depth + 1)
    ensures Shaped(Fields(fields), depth)
  {
  }

  lemma ListShaped<A(!new)>(xs: seq<A>, f: A -> Tree, limit: nat, depth: nat)
    requires depth < MAX_DEPTH && |xs| <= limit && forall x :: x in xs ==> Shaped(f(x), depth + 1)
    ensures Shaped(List(Map(f, xs), limit), depth)
  {
    MapShaped(xs, f, depth + 1);
  }

  lemma RowShaped(r: ReplayRow, depth: nat)
    requires depth < MAX_DEPTH - 1 && |r.attempted| <= MAX_ATTEMPTS && |r.slices| <= MAX_SLICES
    ensures Shaped(RowTree(r), depth)
  {
    hide Shaped;
    LeafListShaped(|r.attempted|, MAX_ATTEMPTS, depth + 1);
    LeafListShaped(|r.slices|, MAX_SLICES, depth + 1);
    LeavesShaped(12, depth + 1);
    var rest := [List(Leaves(|r.attempted|), MAX_ATTEMPTS), List(Leaves(|r.slices|), MAX_SLICES)];
    JoinShaped(Leaves(12), rest, depth + 1);
    FieldsShaped(Leaves(12) + rest, depth);
  }

  lemma PolicyShaped(p: Policy, depth: nat)
    requires depth < MAX_DEPTH - 2 && |p.body.predicates| <= MAX_LIST
    ensures Shaped(PolicyTree(p), depth)
  {
    hide Shaped;
    forall q | q in p.body.predicates ensures Shaped(PredicateTree(q), depth + 2) { LeafListShaped(4, 4, depth + 2); }
    ListShaped(p.body.predicates, PredicateTree, MAX_LIST, depth + 1);
    LeavesShaped(11, depth + 1);
    var rest := [List(Map(PredicateTree, p.body.predicates), MAX_LIST)];
    JoinShaped(Leaves(11), rest, depth + 1);
    FieldsShaped(Leaves(11) + rest, depth);
  }

  lemma MetricsShaped(m: Metrics, depth: nat)
    requires depth < MAX_DEPTH - 1
    ensures Shaped(MetricsTree(m), depth)
  {
    hide Shaped;
    LeafListShaped(2, 2, depth + 1);
    LeafListShaped(3, 3, depth + 1);
    FieldsShaped(MetricsTree(m).fields, depth);
  }

  lemma GatesShaped(gs: seq<Gate>, depth: nat)
    requires depth < MAX_DEPTH - 1 && |gs| <= MAX_GATES
    ensures Shaped(List(Map(GateTree, gs), MAX_GATES), depth)
  {
    hide Shaped;
    LeafListShaped(6, 6, depth + 1);
    LeafListShaped(7, 7, depth + 1);
    ListShaped(gs, GateTree, MAX_GATES, depth);
  }

  lemma InferenceShaped(i: Option<Inference>, depth: nat)
    requires depth < MAX_DEPTH - 1
    ensures Shaped(InferenceTree(i), depth)
  {
    LeafListShaped(2, 2, depth + 1);
    LeavesShaped(10, depth + 1);
    JoinShaped(Leaves(10), [Fields(Leaves(2))], depth + 1);
    FieldsShaped(Leaves(10) + [Fields(Leaves(2))], depth);
  }

  lemma CoverageShaped(c: Coverage, depth: nat)
    requires depth < MAX_DEPTH - 2 && |c.sliceGroups| <= MAX_CRITICAL_SLICES
    ensures Shaped(CoverageTree(c), depth)
  {
    hide Shaped;
    LeafListShaped(2, 2, depth + 2);
    ListShaped(c.sliceGroups, SliceTree, MAX_CRITICAL_SLICES, depth + 1);
    LeavesShaped(7, depth + 1);
    var rest := [List(Map(SliceTree, c.sliceGroups), MAX_CRITICAL_SLICES)];
    JoinShaped(Leaves(7), rest, depth + 1);
    FieldsShaped(Leaves(7) + rest, depth);
  }

  lemma RowsShaped(rows: seq<ReplayRow>, depth: nat)
    requires depth < MAX_DEPTH - 2 && |rows| <= MAX_REPLAY_ROWS
    requires forall r :: r in rows ==> |r.attempted| <= MAX_ATTEMPTS && |r.slices| <= MAX_SLICES
    ensures Shaped(Rows(Map(RowTree, rows)), depth)
  {
    forall r | r in rows ensures Shaped(RowTree(r), depth + 1) { RowShaped(r, depth + 1); }
    MapShaped(rows, RowTree, depth + 1);
  }

  /** A small result with few slices and rows has the shape the contract demands. */
  lemma CandidateShaped(c: Candidate, s: nat, depth: nat)
    requires Small(c, s) && s <= MAX_CRITICAL_SLICES && |c.replay| <= MAX_REPLAY_ROWS && depth < MAX_DEPTH - 4
    ensures Shaped(CandidateTree(c), depth)
  {
    hide Shaped, PolicyTree, MetricsTree, InferenceTree, CoverageTree;
    PolicyShaped(c.policy, depth + 1);
    RowsShaped(c.replay, depth + 1);
    MetricsShaped(c.metrics, depth + 1);
    GatesShaped(c.gates, depth + 1);
    InferenceShaped(c.inference, depth + 1);
    CoverageShaped(c.coverage, depth + 1);
    LeafListShaped(|c.insufficiency|, MAX_REASONS, depth + 1);
    LeafListShaped(|c.rejection|, MAX_REASONS, depth + 1);
    LeafShaped(depth + 1);
    FieldsShaped(CandidateTree(c).fields, depth);
  }

  lemma LeafShaped(depth: nat)
    requires depth <= MAX_DEPTH
    ensures Shaped(Leaf, depth)
  {
  }

  lemma SelectedShaped(p: Option<Policy>, depth: nat)
    requires depth < MAX_DEPTH - 2 && (p.Some? ==> |p.value.body.predicates| <= MAX_LIST)
    ensures Shaped(SelectedTree(p), depth)
  {
    LeafShaped(depth);
    if p.Some? { PolicyShaped(p.value, depth); }
    hide Shaped;
  }

  lemma DecisionShaped(d: Decision, s: nat)
    requires s <= MAX_CRITICAL_SLICES && Small(d.control, s) && |d.control.replay| <= MAX_REPLAY_ROWS
    requires forall c :: c in d.candidates ==> Small(c, s) && |c.replay| <= MAX_REPLAY_ROWS
    requires (d.selected.Some? ==> |d.selected.value.body.predicates| <= 1) && |d.staleReasons| <= MAX_REASONS && |d.warnings| <= MAX_REASONS
    requires |d.unavailable| <= 7 && |d.candidates| <= MAX_CANDIDATES
    ensures Shaped(DecisionTree(d), 0)
  {
    hide Shaped, CandidateTree, SelectedTree, Small;
    CandidateShaped(d.control, s, 1);
    forall c | c in d.candidates ensures Shaped(CandidateTree(c), 2) { CandidateShaped(c, s, 2); }
    ListShaped(d.candidates, CandidateTree, MAX_CANDIDATES, 1);
    SelectedShaped(d.selected, 1);
    LeafListShaped(|d.staleReasons|, MAX_REASONS, 1);
    LeafListShaped(|d.warnings|, MAX_REASONS, 1);
    LeafListShaped(|d.unavailable|, MAX_REASONS, 1);
    LeafListShaped(4, 4, 1);
    LeavesShaped(13, 1);
    var tail := DecisionTree(d).fields[13..];
    assert DecisionTree(d).fields == Leaves(13) + tail;
    JoinShaped(Leaves(13), tail, 1);
    FieldsShaped(Leaves(13) + tail, 0);
  }

  // ----- main results

  lemma {:induction false} SliceCounts(ss: seq<Text>)
    ensures |SortStrings(ss)| == |ss|
  {
    SortPermutes(ss, ByKey(Itself));
  }

  lemma PolicyPredicates(w: Wording, p: Policy)
    requires PolicyOk(w, p)
    ensures |p.body.predicates| <= 1
  {
  }

  lemma RowsBounded(w: Wording, c: Candidate)
    requires CandidateOk(w, c)
    ensures |c.policy.body.predicates| <= 1 && |c.rejection| <= MAX_REASONS
    ensures forall r :: r in c.replay ==> |r.attempted| <= MAX_ATTEMPTS && |r.slices| <= MAX_SLICES
  {
    PolicyPredicates(w, c.policy);
    forall r | r in c.replay ensures |r.attempted| <= MAX_ATTEMPTS && |r.slices| <= MAX_SLICES {
      var i :| 0 <= i < |c.replay| && c.replay[i] == r;
      assert RowOk(c.replay[i]);
    }
  }

  lemma AssessedParts(w: Wording, plan: Plan, phase: Phase, policy: Policy, candidate: Replay, control: Replay, evidence: seq<Replayed>, c: Candidate)
    requires Assessed(w, plan, phase, policy, candidate, control, evidence, c)
    ensures var paired := Paired(candidate.rows, control.rows);
            && c.policy == policy && |c.replay| == |candidate.rows|
            && c.insufficiency == Texts(w, Shortfalls(plan, phase, candidate, control, c.metrics, paired))
            && c.gates == GatesFor(w, plan, phase, c.metrics, c.inference, paired)
            && |c.coverage.sliceGroups| == |SortStrings(plan.criticalSlices)|
  {
    hide MetricsMean, GatesFor, Shortfalls, Texts, Paired, InferenceIs, SortStrings, Keys, AllPass;
  }

  /** A replayed result is small. */
  lemma ResultSmall(w: Wording, plan: Plan, phase: Phase, es: seq<Execution>, index: Index, pairs: seq<PairId>, control: Policy, policy: Policy, c: Candidate)
    requires PlanOk(plan) && ResultOf(w, plan, phase, index, pairs, control, policy, c)
    ensures Small(c, |plan.criticalSlices|) && |c.replay| <= |pairs|
  {
    hide CandidateOk, Assessed, GatesFor, Shortfalls, Texts, Paired, GateOk, ReplayPair, SortStrings, NoSliceReasons, MetricsOk;
    var replay, base := ReplayOf(policy.body, index, pairs), ReplayOf(control.body, index, pairs);
    var paired := Paired(replay.rows, base.rows);
    AssessedParts(w, plan, phase, policy, replay, base, EvidenceRows(replay, base, policy.digest == control.digest), c);
    RowsBounded(w, c);
    AtMostOne(pairs, RowsBy(policy.body, index));
    ReplayReasons(policy.body, index, pairs);
    ReplayReasons(control.body, index, pairs);
    ReasonsShort(w, plan, phase, replay, base, c.metrics, paired);
    CandidateMetrics(w, c);
    PlanUnique(plan);
    GatesOk(w, plan, phase, c.metrics, c.inference, paired);
    SliceCounts(plan.criticalSlices);
  }

  lemma CandidateMetrics(w: Wording, c: Candidate)
    requires CandidateOk(w, c)
    ensures MetricsOk(c.metrics)
  {
  }

  lemma ReasonsShort(w: Wording, plan: Plan, phase: Phase, candidate: Replay, control: Replay, m: Metrics, paired: seq<Replayed>)
    requires NoSliceReasons(candidate) && NoSliceReasons(control)
    ensures |Texts(w, Shortfalls(plan, phase, candidate, control, m, paired))| <= 10 + |plan.criticalSlices|
  {
    forall x | x in candidate.reasons || x in control.reasons ensures !x.SliceGroups? {}
    forall r | (r in candidate.rows || r in control.rows) && r.reason.Some? ensures !r.reason.value.SliceGroups? {}
    ShortfallsListed(plan, phase, candidate, control, m, paired);
    TextsWithin(w, Shortfalls(plan, phase, candidate, control, m, paired), AllShortfalls(plan));
    hide Shortfalls, Texts;
    assert |AllShortfalls(plan)| == 10 + |plan.criticalSlices|;
  }

  lemma StaleSmall(w: Wording, policy: Policy, reasons: seq<Text>, s: nat)
    requires PolicyOk(w, policy) && |reasons| <= MAX_REASONS
    ensures Small(StaleCandidate(policy, reasons), s) && StaleCandidate(policy, reasons).replay == []
  {
    PolicyPredicates(w, policy);
  }

  /** The decision's counts against the estimate for that many pairs, and the estimate against the contract's limits. */
  predicate FitsEstimate(d: Decision, s: nat, pairs: nat) {
    var n := |d.candidates| + 1;
    && RowCount(DecisionTree(d)) <= n * pairs <= MAX_REPLAY_ROWS
    && Nodes(DecisionTree(d)) <= EstimatedNodes(n, s, n * pairs) <= MAX_NODES
  }

  /** Every decision the engine returns fits the estimate made before any replay. */
  lemma EstimateBounds(
      w: Wording, plan: Plan, phase: Phase, es: seq<Execution>, frozen: Option<Policy>,
      policies: seq<Policy>, issued: int, d: Decision)
    requires PlanOk(plan) && DecisionOk(w, d)
    requires Explained(w, plan, phase, es, frozen, d.staleReasons, policies, issued, d)
    requires WithinBudget(plan, |d.candidates|, |LogicalPairs(es)|)
    ensures FitsEstimate(d, |plan.criticalSlices|, |LogicalPairs(es)|)
    ensures Shaped(DecisionTree(d), 0)
  {
    hide DecisionTree, Nodes, RowCount, Explained, DecisionOk, Small, LogicalPairs, PlanOk, Shaped;
    DecisionParts(w, d);
    AllSmall(w, plan, phase, es, frozen, d.staleReasons, policies, issued, d);
    UnavailableCount(d);
    DecisionSize(d, |plan.criticalSlices|, |LogicalPairs(es)|);
    FewPairs(plan, |d.candidates|, |LogicalPairs(es)|);
    PlanFewSlices(plan);
    DecisionShaped(d, |plan.criticalSlices|);
  }

  lemma PlanFewSlices(plan: Plan)
    requires PlanOk(plan)
    ensures |plan.criticalSlices| <= MAX_CRITICAL_SLICES
  {
  }

  /** Hence the contract's walk over the finished decision runs to the end. */
  method SnapshotDecision(
      w: Wording, plan: Plan, phase: Phase, es: seq<Execution>, frozen: Option<Policy>,
      ghost policies: seq<Policy>, ghost issued: int, d: Decision) returns (ok: bool)
    requires PlanOk(plan) && DecisionOk(w, d)
    requires Explained(w, plan, phase, es, frozen, d.staleReasons, policies, issued, d)
    requires WithinBudget(plan, |d.candidates|, |LogicalPairs(es)|)
    ensures ok
  {
    hide DecisionTree, Nodes, RowCount, Explained, DecisionOk, LogicalPairs, PlanOk, WithinBudget, Shaped;
    EstimateBounds(w, plan, phase, es, frozen, policies, issued, d);
    var state := new SnapshotState();
    ok := state.Snapshot(DecisionTree(d), 0);
  }

  lemma DecisionParts(w: Wording, d: Decision)
    requires DecisionOk(w, d)
    ensures |d.staleReasons| <= MAX_REASONS && |d.warnings| <= MAX_REASONS && d.unavailable == UnavailableNames(d.candidates)
    ensures |d.candidates| <= MAX_CANDIDATES
    ensures d.selected.Some? ==> |d.selected.value.body.predicates| <= 1
  {
    hide CandidateOk, DevelopmentOk, LaterPhaseOk, StaleOk, DigestOrdered, Bound, UnavailableNames;
  }

  lemma {:induction false} NamesKnown(cs: seq<Candidate>)
    ensures UnavailableNames(cs) <= METRIC_NAMES
  {
    if cs != [] { NamesKnown(cs[..|cs| - 1]); }
  }

  lemma UnavailableCount(d: Decision)
    requires d.unavailable == UnavailableNames(d.candidates)
    ensures |d.unavailable| <= 7
  {
    NamesKnown(d.candidates);
    SubsetSize(d.unavailable, METRIC_NAMES);
    assert |METRIC_NAMES| == 7;
  }

  lemma {:induction false} SubsetSize<T>(a: set<T>, b: set<T>)
    requires a <= b
    ensures |a| <= |b|
  {
    assert b == a + (b - a);
  }

  lemma StaleAllSmall(w: Wording, plan: Plan, phase: Phase, frozen: Option<Policy>, policies: seq<Policy>, base: Policy, d: Decision, s: nat)
    requires PolicyOk(w, base) && Chosen(w, plan, phase, frozen, policies) && |d.staleReasons| <= MAX_REASONS && |d.candidates| == |policies|
    requires d.control == StaleCandidate(base, d.staleReasons)
    requires forall i :: 0 <= i < |policies| ==> d.candidates[i] == StaleCandidate(policies[i], d.staleReasons)
    ensures Small(d.control, s) && d.control.replay == []
    ensures forall c :: c in d.candidates ==> Small(c, s) && c.replay == []
  {
    hide PolicyOk, Small, StaleCandidate;
    StaleSmall(w, base, d.staleReasons, s);
    forall c | c in d.candidates ensures Small(c, s) && c.replay == [] {
      var i :| 0 <= i < |policies| && d.candidates[i] == c;
      assert PolicyOk(w, policies[i]);
      StaleSmall(w, policies[i], d.staleReasons, s);
    }
  }

  lemma FreshAllSmall(w: Wording, plan: Plan, phase: Phase, es: seq<Execution>, base: Policy, index: Index, policies: seq<Policy>, d: Decision)
    requires PlanOk(plan) && ReplayedAll(w, plan, phase, es, base, index, policies, d.control, d.candidates)
    ensures Small(d.control, |plan.criticalSlices|) && |d.control.replay| <= |LogicalPairs(es)|
    ensures forall c :: c in d.candidates ==> Small(c, |plan.criticalSlices|) && |c.replay| <= |LogicalPairs(es)|
  {
    hide PlanOk, Small, ResultOf, LogicalPairs, Indexes;
    var pairs := LogicalPairs(es);
    ResultSmall(w, plan, phase, es, index, pairs, base, base, d.control);
    forall c | c in d.candidates ensures Small(c, |plan.criticalSlices|) && |c.replay| <= |pairs| {
      var i :| 0 <= i < |policies| && d.candidates[i] == c;
      ResultSmall(w, plan, phase, es, index, pairs, base, policies[i], c);
    }
  }

  lemma AllSmall(
      w: Wording, plan: Plan, phase: Phase, es: seq<Execution>, frozen: Option<Policy>, reasons: seq<Text>,
      policies: seq<Policy>, issued: int, d: Decision)
    requires PlanOk(plan) && |reasons| <= MAX_REASONS && reasons == d.staleReasons
    requires Explained(w, plan, phase, es, frozen, reasons, policies, issued, d)
    ensures Small(d.control, |plan.criticalSlices|) && |d.control.replay| <= |LogicalPairs(es)|
    ensures forall c :: c in d.candidates ==> Small(c, |plan.criticalSlices|) && |c.replay| <= |LogicalPairs(es)|
  {
    hide ControlPolicy, LogicalPairs, PlanOk, PolicyOk, Decided, Small, ReplayedAll, StaleCandidate, Replayable, Chosen;
    var base := ControlPolicy(w, plan, issued);
    ControlOk(w, plan, issued);
    if reasons != [] {
      StaleAllSmall(w, plan, phase, frozen, policies, base, d, |plan.criticalSlices|);
    } else {
      var index :| ReplayedAll(w, plan, phase, es, base, index, policies, d.control, d.candidates);
      FreshAllSmall(w, plan, phase, es, base, index, policies, d);
    }
  }
}
