/** joinAssessmentEvidence: deduplicate, find conflicts and orphans, and give every execution its outcome. */
module EvidenceJoin {
  import opened CodeUnits
  import opened Wrappers
  import opened Sorting
  import opened Grouping
  import opened EvidenceModel

  // ----- group splits

  /** Big-endian value of a digest. */
  function Magnitude(bytes: seq<byte>): nat {
    if bytes == [] then 0 else Magnitude(bytes[..|bytes| - 1]) * 256 + bytes[|bytes| - 1]
  }

  function Bucket(p: Protocol, groupId: Text): nat { Magnitude(p.groupDigest(groupId)) % p.bucketCount }

  /** The bucket and its split, unless the bucket is in both lists or in neither. */
  function GroupSplit(p: Protocol, groupId: Text): Option<(nat, Split)> {
    var bucket := Bucket(p, groupId);
    var development, holdout := bucket in p.developmentBuckets, bucket in p.holdoutBuckets;
    if development == holdout then None else Some((bucket, if development then Dev else Holdout))
  }

  lemma Multiple(k: int, d: int)
    requires k >= 1 && d > 0
    ensures k * d >= d
  {
  }

  lemma Remainder(x: nat, d: nat, q: nat, r: nat)
    requires d > 0 && x == q * d + r && r < d
    ensures x % d == r
  {
    var p := x / d;
    assert (p - q) * d == p * d - q * d;
    assert (q - p) * d == q * d - p * d;
    if p > q { Multiple(p - q, d); }
    if q > p { Multiple(q - p, d); }
  }

  lemma Euclid(x: nat, d: nat)
    requires d > 0
    ensures x == (x / d) * d + x % d && x % d < d
  {
  }

  lemma Scaled(q: int, t: int, d: int)
    ensures (q * 256 + t) * d == q * d * 256 + t * d
  {
  }

  lemma Reduce(m: nat, b: nat, d: nat, q: nat, r: nat, t: nat, u: nat)
    requires d > 0 && m == q * d + r && r * 256 + b == t * d + u && u < d
    ensures (m * 256 + b) % d == u
  {
    Scaled(q, t, d);
    Remainder(m * 256 + b, d, q * 256 + t, u);
  }

  lemma ReduceStep(m: nat, b: nat, d: nat)
    requires d > 0
    ensures (m % d * 256 + b) % d == (m * 256 + b) % d
  {
    var q, r := m / d, m % d;
    Euclid(m, d);
    var t, u := (r * 256 + b) / d, (r * 256 + b) % d;
    Euclid(r * 256 + b, d);
    Reduce(m, b, d, q, r, t, u);
  }

  /** resolveNormalizedGroupSplit: the digest is reduced byte by byte, never as one number. */
  method ResolveGroupSplit(p: Protocol, groupId: Text) returns (r: Option<(nat, Split)>)
    ensures r == GroupSplit(p, groupId)
  {
    var bytes := p.groupDigest(groupId);
    var remainder: nat := 0;
    for i := 0 to |bytes|
      invariant remainder == Magnitude(bytes[..i]) % p.bucketCount
    {
      ReduceStep(Magnitude(bytes[..i]), bytes[i], p.bucketCount);
      assert bytes[..i + 1][..i] == bytes[..i];
      remainder := (remainder * 256 + bytes[i]) % p.bucketCount;
    }
    assert bytes[..|bytes|] == bytes;
    var development, holdout := remainder in p.developmentBuckets, remainder in p.holdoutBuckets;
    if development == holdout { return None; }
    return Some((remainder, if development then Dev else Holdout));
  }

  /** What every trace must satisfy before the join: identity, validity interval, profile and split. */
  predicate TraceAdmissible(p: Protocol, t: Trace) {
    && WellFormedTrace(t)
    && t.studyId == p.studyId && t.protocolDigest == p.digest
    && p.createdAt <= t.startedAt && t.completedAt < p.expiresAt
    && t.profileId in p.profileDigests && t.profileDigest == p.profileDigests[t.profileId]
    && p.attemptsConform(t)
    && (!t.split.Online? ==> GroupSplit(p, t.groupId).Some? && t.split == GroupSplit(p, t.groupId).value.1)
  }

  function SplitBucket(p: Protocol, t: Trace): Option<nat>
    requires TraceAdmissible(p, t)
  {
    if t.split.Online? then None else Some(GroupSplit(p, t.groupId).value.0)
  }

  // ----- unambiguous traces

  function TraceIdKey(t: Trace): Text { t.traceId }
  function CaseKey(t: Trace): Text { t.caseId }
  function DigestKey(n: Names): Trace -> Text { (t: Trace) => TraceDigest(n, t) }
  function LogicalBy(n: Names): Trace -> Text { (t: Trace) => LogicalKey(n, t) }
  function ExecutionBy(n: Names): Trace -> Text { (t: Trace) => ExecutionKey(n, t) }
  function PairBy(n: Names): Trace -> Text { (t: Trace) => PairKey(n, t) }

  function SortedDigests(n: Names, ts: seq<Trace>): seq<Text> { SortStrings(Map(DigestKey(n), ts)) }

  /** What a group of rows with one trace id yields: its first row unless the rows differ. */
  function OneTrace(n: Names, g: seq<Trace>): seq<Trace> {
    if g != [] && |Distinct(SortedDigests(n, g))| <= 1 then [g[0]] else []
  }

  function RepeatedTrace(n: Names, id: Text, g: seq<Trace>): seq<DuplicateTrace> {
    var distinct := Distinct(SortedDigests(n, g));
    if |g| > 1 && |distinct| == 1 then [DuplicateTrace(distinct[0], id, |g|)] else []
  }

  function ClashingTrace(n: Names, id: Text, g: seq<Trace>): seq<ConflictTrace> {
    var distinct := Distinct(SortedDigests(n, g));
    if |distinct| > 1 then [ConflictTrace(n.digest(TraceIdOf(id)), distinct, true)] else []
  }

  function OneById(n: Names, ts: seq<Trace>): Text -> seq<Trace> { id => OneTrace(n, Group(ts, TraceIdKey, id)) }
  function RepeatedById(n: Names, ts: seq<Trace>): Text -> seq<DuplicateTrace> { id => RepeatedTrace(n, id, Group(ts, TraceIdKey, id)) }
  function ClashingById(n: Names, ts: seq<Trace>): Text -> seq<ConflictTrace> { id => ClashingTrace(n, id, Group(ts, TraceIdKey, id)) }

  function AfterIdentity(n: Names, ts: seq<Trace>): seq<Trace> { Gather(Keys(ts, TraceIdKey), OneById(n, ts)) }
  function RepeatedTraces(n: Names, ts: seq<Trace>): seq<DuplicateTrace> { Gather(Keys(ts, TraceIdKey), RepeatedById(n, ts)) }
  function ClashingIds(n: Names, ts: seq<Trace>): seq<ConflictTrace> { Gather(Keys(ts, TraceIdKey), ClashingById(n, ts)) }

  /** The sole row of a group. */
  function Only<T>(g: seq<T>): seq<T> { if |g| == 1 then g else [] }

  function ClashingGroup(n: Names, key: Text, g: seq<Trace>): seq<ConflictTrace> {
    if |g| > 1 then [ConflictTrace(key, SortedDigests(n, g), false)] else []
  }

  function OnlyByLogical(n: Names, ts: seq<Trace>): Text -> seq<Trace> { key => Only(Group(ts, LogicalBy(n), key)) }
  function ClashByLogical(n: Names, ts: seq<Trace>): Text -> seq<ConflictTrace> { key => ClashingGroup(n, key, Group(ts, LogicalBy(n), key)) }

  function UniqueTraces(n: Names, ts: seq<Trace>): seq<Trace> {
    var after := AfterIdentity(n, ts);
    Gather(Keys(after, LogicalBy(n)), OnlyByLogical(n, after))
  }

  function ClashingTraces(n: Names, ts: seq<Trace>): seq<ConflictTrace> {
    var after := AfterIdentity(n, ts);
    ClashingIds(n, ts) + Gather(Keys(after, LogicalBy(n)), ClashByLogical(n, after))
  }

  function TraceRecords(n: Names, ts: seq<Trace>): seq<Trace> { Sort(UniqueTraces(n, ts), ByKey(ExecutionBy(n))) }

  lemma GatherStep<A, B>(xs: seq<A>, i: nat, f: A -> seq<B>)
    requires i < |xs|
    ensures Gather(xs[..i + 1], f) == Gather(xs[..i], f) + f(xs[i])
  {
    assert xs[..i + 1][..i] == xs[..i];
  }

  lemma GatherWhole<A, B>(xs: seq<A>, f: A -> seq<B>)
    ensures Gather(xs[..|xs|], f) == Gather(xs, f)
  {
    assert xs[..|xs|] == xs;
  }

  /** The first grouping pass: by trace id. */
  method RetainByTraceId(n: Names, records: seq<Trace>)
      returns (after: seq<Trace>, duplicates: seq<DuplicateTrace>, conflicts: seq<ConflictTrace>)
    ensures after == AfterIdentity(n, records)
    ensures duplicates == RepeatedTraces(n, records) && conflicts == ClashingIds(n, records)
  {
    after, duplicates, conflicts := [], [], [];
    var ids, groups := GroupBy(records, TraceIdKey);
    for i := 0 to |ids|
      invariant after == Gather(ids[..i], OneById(n, records))
      invariant duplicates == Gather(ids[..i], RepeatedById(n, records))
      invariant conflicts == Gather(ids[..i], ClashingById(n, records))
    {
      var id := ids[i];
      var group := groups[id];
      GroupMembers(records, TraceIdKey, id);
      GatherStep(ids, i, OneById(n, records));
      GatherStep(ids, i, RepeatedById(n, records));
      GatherStep(ids, i, ClashingById(n, records));
      var distinct := Distinct(SortedDigests(n, group));
      if |group| > 1 && |distinct| == 1 {
        duplicates := duplicates + [DuplicateTrace(distinct[0], id, |group|)];
        after := after + [group[0]];
        continue;
      }
      if |distinct| > 1 {
        conflicts := conflicts + [ConflictTrace(n.digest(TraceIdOf(id)), distinct, true)];
        continue;
      }
      after := after + [group[0]];
    }
    GatherWhole(ids, OneById(n, records));
    GatherWhole(ids, RepeatedById(n, records));
    GatherWhole(ids, ClashingById(n, records));
  }

  /** The second pass: one execution per case, replicate and profile. */
  method RetainByLogicalProfile(n: Names, after: seq<Trace>) returns (unique: seq<Trace>, conflicts: seq<ConflictTrace>)
    ensures unique == Gather(Keys(after, LogicalBy(n)), OnlyByLogical(n, after))
    ensures conflicts == Gather(Keys(after, LogicalBy(n)), ClashByLogical(n, after))
  {
    unique, conflicts := [], [];
    var keys, groups := GroupBy(after, LogicalBy(n));
    for i := 0 to |keys|
      invariant unique == Gather(keys[..i], OnlyByLogical(n, after))
      invariant conflicts == Gather(keys[..i], ClashByLogical(n, after))
    {
      var group := groups[keys[i]];
      GroupMembers(after, LogicalBy(n), keys[i]);
      GatherStep(keys, i, OnlyByLogical(n, after));
      GatherStep(keys, i, ClashByLogical(n, after));
      if |group| > 1 {
        conflicts := conflicts + [ConflictTrace(keys[i], SortedDigests(n, group), false)];
        continue;
      }
      unique := unique + [group[0]];
    }
    GatherWhole(keys, OnlyByLogical(n, after));
    GatherWhole(keys, ClashByLogical(n, after));
  }

  /** retainUniqueTraceRecords */
  method RetainUniqueTraceRecords(n: Names, records: seq<Trace>)
      returns (unique: seq<Trace>, duplicates: seq<DuplicateTrace>, conflicts: seq<ConflictTrace>)
    ensures unique == TraceRecords(n, records)
    ensures duplicates == RepeatedTraces(n, records) && conflicts == ClashingTraces(n, records)
  {
    var after, logical;
    after, duplicates, conflicts := RetainByTraceId(n, records);
    unique, logical := RetainByLogicalProfile(n, after);
    unique, conflicts := Sort(unique, ByKey(ExecutionBy(n))), conflicts + logical;
  }

  // ----- metadata shared by paired executions and by replicates of a case

  predicate SharedMetadata(a: Trace, b: Trace) {
    && a.groupId == b.groupId && a.split == b.split && a.weight == b.weight && a.workload == b.workload
    && SortStrings(a.slices) == SortStrings(b.slices) && a.routeSignal == b.routeSignal
    && a.policyDigest == b.policyDigest && a.windowId == b.windowId && a.windowMembership == b.windowMembership
  }

  ghost predicate MetadataOk(n: Names, records: seq<Trace>) {
    forall a, b :: a in records && b in records ==>
      && (a.groupId == b.groupId ==> a.split == b.split)
      && (PairKey(n, a) == PairKey(n, b) || a.caseId == b.caseId ==> SharedMetadata(a, b))
  }

  /** No group appears in two splits. */
  method CheckGroupSplits(records: seq<Trace>) returns (ok: bool)
    ensures ok <==> forall a, b :: a in records && b in records && a.groupId == b.groupId ==> a.split == b.split
  {
    var splits: map<Text, Split> := map[];
    for i := 0 to |records|
      invariant forall k :: 0 <= k < i ==> records[k].groupId in splits && splits[records[k].groupId] == records[k].split
      invariant forall g :: g in splits ==> exists k :: 0 <= k < i && records[k].groupId == g
    {
      var record := records[i];
      if record.groupId in splits && splits[record.groupId] != record.split {
        var k :| 0 <= k < i && records[k].groupId == record.groupId;
        assert records[k] in records && records[i] in records;
        return false;
      }
      splits := splits[record.groupId := record.split];
    }
    return true;
  }

  /** Every record of a group shares the first one's metadata: then any two share it. */
  method CheckShared<K(!new, ==)>(records: seq<Trace>, keyOf: Trace -> K) returns (ok: bool)
    ensures ok <==> forall a, b :: a in records && b in records && keyOf(a) == keyOf(b) ==> SharedMetadata(a, b)
  {
    var keys, groups := GroupBy(records, keyOf);
    KeysAre(records, keyOf);
    for i := 0 to |keys|
      invariant forall j :: 0 <= j < i ==> forall a, b :: a in groups[keys[j]] && b in groups[keys[j]] ==> SharedMetadata(a, b)
    {
      var group := groups[keys[i]];
      GroupMembers(records, keyOf, keys[i]);
      for k := 1 to |group|
        invariant forall j :: 0 <= j < k ==> SharedMetadata(group[0], group[j])
      {
        if !SharedMetadata(group[0], group[k]) {
          assert group[0] in group && group[k] in group;
          return false;
        }
      }
    }
    forall a, b | a in records && b in records && keyOf(a) == keyOf(b) ensures SharedMetadata(a, b) {
      GroupMembers(records, keyOf, keyOf(a));
      var j :| 0 <= j < |keys| && keys[j] == keyOf(a);
      assert a in groups[keys[j]] && b in groups[keys[j]];
    }
    return true;
  }

  /** validateTraceMetadata */
  method ValidateTraceMetadata(n: Names, records: seq<Trace>) returns (ok: bool)
    ensures ok <==> MetadataOk(n, records)
  {
    ok := CheckGroupSplits(records);
    if !ok { return; }
    ok := CheckShared(records, PairBy(n));
    if !ok {
      assert exists a, b :: a in records && b in records && PairBy(n)(a) == PairBy(n)(b) && !SharedMetadata(a, b);
      return;
    }
    ok := CheckShared(records, CaseKey);
    assert forall a, b :: a in records && b in records && PairKey(n, a) == PairKey(n, b) ==> PairBy(n)(a) == PairBy(n)(b);
    assert forall a, b :: a in records && b in records && a.caseId == b.caseId ==> CaseKey(a) == CaseKey(b);
  }
}
