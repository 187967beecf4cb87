/** What the join means: which traces are kept, which executions are scored, and where every receipt ends. */
module EvidenceResult {
  import opened CodeUnits
  import opened Wrappers
  import opened Sorting
  import opened Grouping
  import opened EvidenceModel
  import opened EvidenceJoin
  import opened EvidenceAdmission
  import opened EvidencePlacement
  import opened EvidenceOrder

  // ----- retained traces

  /** No other row carries the same trace id. */
  ghost predicate SoleId(ts: seq<Trace>, t: Trace) { t in ts && forall u :: u in ts && u.traceId == t.traceId ==> u == t }

  /** Nor is there a second execution of the same case replicate by the same profile. */
  ghost predicate Unambiguous(n: Names, ts: seq<Trace>, t: Trace) {
    SoleId(ts, t) && forall u :: SoleId(ts, u) && LogicalKey(n, u) == LogicalKey(n, t) ==> u == t
  }

  lemma OneTraceMembers(n: Names, g: seq<Trace>)
    requires CollisionFree(n)
    ensures forall t :: t in OneTrace(n, g) <==> t in g && AllAlike(g)
    ensures NoDuplicates(OneTrace(n, g))
  {
    OneDigest(n, g);
    if g != [] { assert g[0] in g; }
  }

  lemma AfterIdentityMembers(n: Names, ts: seq<Trace>)
    requires CollisionFree(n)
    ensures forall t :: t in AfterIdentity(n, ts) <==> SoleId(ts, t)
    ensures NoDuplicates(AfterIdentity(n, ts))
  {
    hide OneTrace, CollisionFree;
    var ids := Keys(ts, TraceIdKey);
    KeysAre(ts, TraceIdKey);
    KeysDistinct(ts, TraceIdKey);
    GatherMembers(ids, OneById(n, ts));
    forall id ensures (forall t :: t in OneById(n, ts)(id) <==> SoleId(ts, t) && t.traceId == id) && NoDuplicates(OneById(n, ts)(id)) {
      GroupMembers(ts, TraceIdKey, id);
      OneTraceMembers(n, Group(ts, TraceIdKey, id));
    }
    forall t ensures t in AfterIdentity(n, ts) <==> SoleId(ts, t) {
      if SoleId(ts, t) { assert TraceIdKey(t) in ids && t in OneById(n, ts)(t.traceId); }
    }
    GatherNoDuplicates(ids, OneById(n, ts));
  }

  lemma OnlyMembers(g: seq<Trace>)
    requires NoDuplicates(g)
    ensures forall t :: t in Only(g) <==> t in g && AllAlike(g)
    ensures NoDuplicates(Only(g))
  {
    if |g| > 1 { assert g[0] in g && g[1] in g && g[0] != g[1]; }
  }

  lemma GroupNoDuplicates<T(!new), K>(xs: seq<T>, keyOf: T -> K, key: K)
    requires NoDuplicates(xs)
    ensures NoDuplicates(Group(xs, keyOf, key))
  {
    NoDuplicatesCounted(xs);
    GroupCounts(xs, keyOf, key);
    NoDuplicatesCounted(Group(xs, keyOf, key));
  }

  lemma OnlyOfKey(n: Names, ts: seq<Trace>, xs: seq<Trace>, k: Text)
    requires NoDuplicates(xs) && forall t :: t in xs <==> SoleId(ts, t)
    ensures forall t :: t in OnlyByLogical(n, xs)(k) <==> Unambiguous(n, ts, t) && LogicalKey(n, t) == k
    ensures NoDuplicates(OnlyByLogical(n, xs)(k))
  {
    hide SoleId, Only;
    GroupMembers(xs, LogicalBy(n), k);
    GroupNoDuplicates(xs, LogicalBy(n), k);
    OnlyMembers(Group(xs, LogicalBy(n), k));
  }

  lemma UniqueMembers(n: Names, ts: seq<Trace>)
    requires CollisionFree(n)
    ensures forall t :: t in UniqueTraces(n, ts) <==> Unambiguous(n, ts, t)
    ensures NoDuplicates(UniqueTraces(n, ts))
  {
    AfterIdentityMembers(n, ts);
    hide AfterIdentity, SoleId, CollisionFree, Only, OnlyByLogical, NoDuplicates;
    var xs, f := AfterIdentity(n, ts), OnlyByLogical(n, AfterIdentity(n, ts));
    var keys := Keys(xs, LogicalBy(n));
    KeysAre(xs, LogicalBy(n));
    KeysDistinct(xs, LogicalBy(n));
    GatherMembers(keys, f);
    forall k ensures (forall t :: t in f(k) <==> Unambiguous(n, ts, t) && LogicalKey(n, t) == k) && NoDuplicates(f(k)) {
      OnlyOfKey(n, ts, xs, k);
    }
    hide Unambiguous;
    forall t ensures t in UniqueTraces(n, ts) <==> Unambiguous(n, ts, t) {
      if Unambiguous(n, ts, t) {
        UnambiguousIsSole(n, ts, t);
        assert LogicalBy(n)(t) in keys && t in f(LogicalKey(n, t));
      }
    }
    GatherNoDuplicates(keys, f);
  }

  lemma UnambiguousIsSole(n: Names, ts: seq<Trace>, t: Trace)
    requires Unambiguous(n, ts, t)
    ensures SoleId(ts, t)
  {
  }

  /** The retained traces are exactly the unambiguous ones, each once. */
  lemma RetainedIffUnambiguous(n: Names, ts: seq<Trace>, t: Trace)
    requires CollisionFree(n)
    ensures t in TraceRecords(n, ts) <==> Unambiguous(n, ts, t)
    ensures NoDuplicates(TraceRecords(n, ts))
  {
    UniqueMembers(n, ts);
    hide UniqueTraces, Unambiguous, CollisionFree;
    SortPermutes(UniqueTraces(n, ts), ByKey(ExecutionBy(n)));
    SameMembers(TraceRecords(n, ts), UniqueTraces(n, ts));
    SortNoDuplicates(UniqueTraces(n, ts), ByKey(ExecutionBy(n)));
  }

  // ----- sole evidence

  /** No other stable record has the same join key. */
  ghost predicate SoleFor(rs: seq<Record>, x: Record) { x in rs && forall y :: y in rs && y.joinKey == x.joinKey ==> y == x }

  function PlacementOrder(rs: seq<Record>): seq<Record> { Sort(SoleEvidence(DistinctEvidence(rs)), ByKey(RecordDigest)) }

  lemma SoleInGroup(xs: seq<Record>, x: Record)
    requires NoDuplicates(xs) && x in xs
    ensures |Group(xs, RecordKey, x.joinKey)| == 1 <==> SoleFor(xs, x)
  {
    var g := Group(xs, RecordKey, x.joinKey);
    GroupMembers(xs, RecordKey, x.joinKey);
    GroupNoDuplicates(xs, RecordKey, x.joinKey);
    assert x in g;
    if |g| == 1 {
      assert g == [g[0]];
    } else {
      assert g[0] in g && g[1] in g && g[0] != g[1];
    }
  }

  lemma PlacedRecords(rs: seq<Record>)
    requires DigestDetermines(rs)
    ensures forall x :: x in PlacementOrder(rs) <==> SoleFor(rs, x)
    ensures NoDuplicates(PlacementOrder(rs))
  {
    DistinctEvidenceMembers(rs);
    hide DistinctEvidence, SoleEvidence, Sort, DigestDetermines;
    var xs := DistinctEvidence(rs);
    SoleMembers(xs);
    forall x ensures x in SoleEvidence(xs) <==> SoleFor(rs, x) {
      if x in xs { SoleInGroup(xs, x); }
    }
    SoleDistinct(xs);
    SortPermutes(SoleEvidence(xs), ByKey(RecordDigest));
    SameMembers(PlacementOrder(rs), SoleEvidence(xs));
    SortNoDuplicates(SoleEvidence(xs), ByKey(RecordDigest));
  }

  lemma SoleDistinct(xs: seq<Record>)
    ensures NoDuplicates(SoleEvidence(xs))
  {
    KeysDistinct(xs, RecordKey);
    hide NoDuplicates, Keys;
    forall k ensures NoDuplicates(OnlyByKey(xs)(k)) && forall x :: x in OnlyByKey(xs)(k) ==> x.joinKey == k {
      GroupMembers(xs, RecordKey, k);
      OnlyIsSingle(Group(xs, RecordKey, k));
    }
    GatherNoDuplicates(Keys(xs, RecordKey), OnlyByKey(xs));
  }

  lemma OnlyIsSingle<T(!new)>(g: seq<T>)
    ensures NoDuplicates(Only(g)) && forall x :: x in Only(g) ==> x in g
  {
  }

  // ----- the trace a record is placed on

  ghost predicate KeysApart(n: Names, ts: seq<Trace>) {
    forall a, b :: a in ts && b in ts && TraceKey(n, a) == TraceKey(n, b) ==> a == b
  }

  lemma RetainedApart(n: Names, ts: seq<Trace>)
    requires CollisionFree(n)
    ensures KeysApart(n, TraceRecords(n, ts))
  {
    var records := TraceRecords(n, ts);
    hide TraceRecords;
    forall a, b | a in records && b in records && TraceKey(n, a) == TraceKey(n, b) ensures a == b {
      RetainedIffUnambiguous(n, ts, a);
      RetainedIffUnambiguous(n, ts, b);
      assert n.digest(TraceJoin(a.protocolDigest, a.traceId, a.profileId, a.output))
          == n.digest(TraceJoin(b.protocolDigest, b.traceId, b.profileId, b.output));
    }
  }

  lemma {:induction false} IndexFinds(n: Names, ts: seq<Trace>)
    requires KeysApart(n, ts)
    ensures forall t :: t in ts ==> TraceKey(n, t) in TraceIndex(n, ts) && TraceIndex(n, ts)[TraceKey(n, t)] == t
    ensures forall k :: k in TraceIndex(n, ts) ==> TraceIndex(n, ts)[k] in ts && TraceKey(n, TraceIndex(n, ts)[k]) == k
  {
    hide TraceKey;
    if ts != [] {
      DropLast(ts);
      var front, last := ts[..|ts| - 1], ts[|ts| - 1];
      IndexFinds(n, front);
      assert last in ts;
      forall t | t in ts ensures t in front || t == last {}
    }
  }

  /** The record is this trace's, and was produced after it completed. */
  predicate Fits(n: Names, t: Trace, x: Record) {
    x.joinKey == TraceKey(n, t) && LineageMatches(t, x.row.evidence) && x.row.evidence.producedAt >= t.completedAt
  }

  ghost predicate KeyedOnce(zs: seq<Record>) { forall i, j :: 0 <= i < j < |zs| ==> zs[i].joinKey != zs[j].joinKey }

  function At(m: map<Text, Record>, key: Text): Option<Record> { if key in m then Some(m[key]) else None }

  predicate IsScored(x: Record) { x.row.evidence.outcome.Scored? }

  /** The two maps of a placement as one trace sees them. */
  function Seen(n: Names, s: Placement, t: Trace): (Option<Record>, Option<Record>) {
    (At(s.scored, ExecutionKey(n, t)), At(s.declared, ExecutionKey(n, t)))
  }

  function Updated(seen: (Option<Record>, Option<Record>), fits: bool, z: Record): (Option<Record>, Option<Record>) {
    if !fits then seen else if IsScored(z) then (Some(z), seen.1) else (seen.0, Some(z))
  }

  lemma PlaceOnSeen(n: Names, u: Trace, s: Placement, z: Record, t: Trace)
    requires CollisionFree(n)
    ensures Seen(n, PlaceOn(n, u, s, z), t) == Updated(Seen(n, s, t), u == t && z.row.evidence.producedAt >= u.completedAt, z)
  {
    hide CollisionFree, ExecutionKey, RowDiagnostic;
    OtherExecution(n, u, t);
  }

  /** One placement step, seen from trace t. */
  lemma PlaceSeen(n: Names, ts: seq<Trace>, s: Placement, z: Record, t: Trace)
    requires CollisionFree(n) && KeysApart(n, ts) && t in ts
    ensures Seen(n, Place(n, ts, s, z), t) == Updated(Seen(n, s, t), Fits(n, t, z), z)
  {
    IndexFinds(n, ts);
    var index := TraceIndex(n, ts);
    hide TraceIndex, LineageMatches, ExecutionKey, TraceKey, RowDiagnostic, OrphanReason, LineageConflict, CollisionFree, PlaceOn, KeysApart;
    if z.joinKey in index { PlaceOnSeen(n, index[z.joinKey], s, z, t); }
  }

  lemma OtherExecution(n: Names, a: Trace, b: Trace)
    requires CollisionFree(n)
    ensures a != b ==> ExecutionKey(n, a) != ExecutionKey(n, b)
  {
    if ExecutionKey(n, a) == ExecutionKey(n, b) { ExecutionKeyTells(n, a, b); }
  }

  /** What a trace sees after a sequence: the record of it that fits, by kind. */
  ghost predicate SeesOnly(n: Names, seen: (Option<Record>, Option<Record>), zs: seq<Record>, t: Trace) {
    forall x :: && (seen.0 == Some(x) <==> x in zs && Fits(n, t, x) && IsScored(x))
                && (seen.1 == Some(x) <==> x in zs && Fits(n, t, x) && !IsScored(x))
  }

  lemma SeesMore(n: Names, seen: (Option<Record>, Option<Record>), front: seq<Record>, z: Record, t: Trace)
    requires SeesOnly(n, seen, front, t) && forall x :: x in front ==> x.joinKey != z.joinKey
    ensures SeesOnly(n, Updated(seen, Fits(n, t, z), z), front + [z], t)
  {
    hide LineageMatches, TraceKey;
  }

  lemma PlaceAllStep(n: Names, ts: seq<Trace>, s: Placement, zs: seq<Record>)
    requires zs != []
    ensures var k := |zs| - 1;
            zs == zs[..k] + [zs[k]] && PlaceAll(n, ts, s, zs) == Place(n, ts, PlaceAll(n, ts, s, zs[..k]), zs[k])
  {
    hide Place;
    DropLast(zs);
  }

  lemma KeyedLast(zs: seq<Record>)
    requires zs != [] && KeyedOnce(zs)
    ensures var k := |zs| - 1; KeyedOnce(zs[..k]) && forall x :: x in zs[..k] ==> x.joinKey != zs[k].joinKey
  {
    var k := |zs| - 1;
    forall x | x in zs[..k] ensures x.joinKey != zs[k].joinKey {
      var i :| 0 <= i < k && zs[..k][i] == x;
      assert zs[i] == x;
    }
  }

  lemma SeesNothing(n: Names, s: Placement, t: Trace)
    requires s.scored == map[] && s.declared == map[]
    ensures SeesOnly(n, Seen(n, s, t), [], t)
  {
  }

  /** After the whole loop a trace has exactly the record that fits it. */
  lemma {:induction false} PlacedSeen(n: Names, ts: seq<Trace>, s: Placement, zs: seq<Record>, t: Trace)
    requires CollisionFree(n) && KeysApart(n, ts) && t in ts && KeyedOnce(zs)
    requires s.scored == map[] && s.declared == map[]
    ensures SeesOnly(n, Seen(n, PlaceAll(n, ts, s, zs), t), zs, t)
  {
    hide CollisionFree, KeysApart, ExecutionKey, Place, Fits, SeesOnly, Seen, KeyedOnce;
    if zs == [] {
      SeesNothing(n, s, t);
    } else {
      hide PlaceAll;
      var k := |zs| - 1;
      PlaceAllStep(n, ts, s, zs);
      KeyedLast(zs);
      PlacedSeen(n, ts, s, zs[..k], t);
      PlaceSeen(n, ts, PlaceAll(n, ts, s, zs[..k]), zs[k], t);
      SeesMore(n, Seen(n, PlaceAll(n, ts, s, zs[..k]), t), zs[..k], zs[k], t);
    }
  }

  // ----- scored executions

  /** All authentic receipts were verified in one context. */
  ghost predicate OneVerificationContext(rs: seq<Receipt>) {
    forall r, q :: r in rs && q in rs && r.Authentic? && q.Authentic? ==> r.context == q.context
  }

  lemma DriftIff(n: Names, p: Protocol, rs: seq<Receipt>)
    requires CollisionFree(n)
    ensures Drifts(Admit(n, p, rs)) <==> !OneVerificationContext(rs)
  {
    var a := Admit(n, p, rs);
    if !Drifts(a) {
      forall r, q | r in rs && q in rs && r.Authentic? && q.Authentic? ensures r.context == q.context { OneContext(n, p, rs, r, q); }
    } else {
      var cs := Contexts(a);
      SortStringsMembers(Distinct(a.contexts));
      KeysDistinct(a.contexts, Itself);
      SortNoDuplicates(Distinct(a.contexts), ByKey(Itself));
      var r := ContextComesFrom(n, p, rs, cs[0]);
      var q := ContextComesFrom(n, p, rs, cs[1]);
      assert cs[0] != cs[1];
      assert r.context != q.context;
    }
  }

  lemma ContextComesFrom(n: Names, p: Protocol, rs: seq<Receipt>, c: Text) returns (r: Receipt)
    requires c in Contexts(Admit(n, p, rs))
    ensures r in rs && r.Authentic? && n.digest(ContextOf(r.context)) == c
  {
    var contexts := Admit(n, p, rs).contexts;
    SortStringsMembers(Distinct(contexts));
    KeysAre(contexts, Itself);
    var x :| x in contexts && Itself(x) == c;
    GatherMembers(rs, ContextFrom(n));
    r :| r in rs && x in ContextFrom(n)(r);
  }

  /** Admitted under one context. */
  ghost predicate Counted(p: Protocol, rs: seq<Receipt>, r: Receipt) { r in rs && Admitted(p, r) && OneVerificationContext(rs) }

  lemma StableMembers(n: Names, p: Protocol, rs: seq<Receipt>, x: Record)
    requires CollisionFree(n)
    ensures x in Stable(Admit(n, p, rs)) <==> exists r :: Counted(p, rs, r) && x == RecordOf(n, r)
  {
    DriftIff(n, p, rs);
    AdmittedFromReceipt(n, p, rs, x);
    hide Admit, CollisionFree, OneVerificationContext, Admitted;
    if x in Stable(Admit(n, p, rs)) {
      var r :| r in rs && Admitted(p, r) && x == RecordOf(n, r);
      assert Counted(p, rs, r);
    }
  }

  /** r is the only distinct evidence counted for trace t, it is t's, and it is not early. */
  ghost predicate SoleReceipt(n: Names, p: Protocol, rs: seq<Receipt>, t: Trace, r: Receipt) {
    && Counted(p, rs, r) && EvidenceKey(n, r.evidence) == TraceKey(n, t)
    && (forall q :: Counted(p, rs, q) && EvidenceKey(n, q.evidence) == TraceKey(n, t) ==> q.evidence == r.evidence)
    && LineageMatches(t, r.evidence) && r.evidence.producedAt >= t.completedAt
  }

  /** x is the record of t's sole receipt. */
  ghost predicate SoleRecord(n: Names, p: Protocol, rs: seq<Receipt>, t: Trace, x: Record) {
    exists r :: SoleReceipt(n, p, rs, t, r) && x == RecordOf(n, r)
  }

  /** The stable records are those of the counted receipts. */
  ghost predicate CountedRecords(n: Names, p: Protocol, rs: seq<Receipt>, stable: seq<Record>) {
    forall y :: y in stable <==> exists r :: Counted(p, rs, r) && y == RecordOf(n, r)
  }

  lemma StableCounted(n: Names, p: Protocol, rs: seq<Receipt>)
    requires CollisionFree(n)
    ensures CountedRecords(n, p, rs, Stable(Admit(n, p, rs)))
  {
    hide Stable, Admit, CollisionFree, OneVerificationContext, Rejection;
    forall y ensures y in Stable(Admit(n, p, rs)) <==> exists r :: Counted(p, rs, r) && y == RecordOf(n, r) { StableMembers(n, p, rs, y); }
  }

  lemma SoleReceiptIff(n: Names, p: Protocol, rs: seq<Receipt>, t: Trace, x: Record)
    requires CollisionFree(n) && forall r :: r in rs ==> Genuine(n, r)
    ensures SoleFor(Stable(Admit(n, p, rs)), x) && Fits(n, t, x) <==> SoleRecord(n, p, rs, t, x)
  {
    hide Stable, Admit, CollisionFree, SoleFor, Fits, Genuine, CountedRecords, OneVerificationContext, Rejection, LineageMatches, TraceKey, EvidenceKey;
    var stable := Stable(Admit(n, p, rs));
    StableCounted(n, p, rs);
    if SoleFor(stable, x) && Fits(n, t, x) { FitsHasReceipt(n, p, rs, t, x, stable); }
    if SoleRecord(n, p, rs, t, x) {
      var r :| SoleReceipt(n, p, rs, t, r) && x == RecordOf(n, r);
      ReceiptFits(n, p, rs, t, r, stable);
    }
  }

  lemma FitsHasReceipt(n: Names, p: Protocol, rs: seq<Receipt>, t: Trace, x: Record, stable: seq<Record>)
    requires CountedRecords(n, p, rs, stable) && SoleFor(stable, x) && Fits(n, t, x)
    ensures SoleRecord(n, p, rs, t, x)
  {
    hide LineageMatches, TraceKey, OneVerificationContext, Rejection;
    var r :| Counted(p, rs, r) && x == RecordOf(n, r);
    RecordParts(n, p, rs, r);
    forall q | Counted(p, rs, q) && EvidenceKey(n, q.evidence) == TraceKey(n, t) ensures q.evidence == r.evidence {
      RecordParts(n, p, rs, q);
      assert RecordOf(n, q) in stable;
    }
    assert SoleReceipt(n, p, rs, t, r);
  }

  lemma RecordParts(n: Names, p: Protocol, rs: seq<Receipt>, r: Receipt)
    requires Counted(p, rs, r)
    ensures r in rs && r.Authentic?
    ensures RecordOf(n, r).row.evidence == r.evidence && RecordOf(n, r).joinKey == EvidenceKey(n, r.evidence)
  {
  }

  lemma ReceiptFits(n: Names, p: Protocol, rs: seq<Receipt>, t: Trace, r: Receipt, stable: seq<Record>)
    requires forall q :: q in rs ==> Genuine(n, q)
    requires CountedRecords(n, p, rs, stable) && SoleReceipt(n, p, rs, t, r)
    ensures SoleFor(stable, RecordOf(n, r)) && Fits(n, t, RecordOf(n, r))
  {
    hide LineageMatches, TraceKey, OneVerificationContext, Rejection, Genuine;
    var x := RecordOf(n, r);
    RecordParts(n, p, rs, r);
    assert x in stable;
    forall y | y in stable && y.joinKey == x.joinKey ensures y == x {
      var q :| Counted(p, rs, q) && y == RecordOf(n, q);
      RecordParts(n, p, rs, q);
      SameEvidenceSameRecord(n, p, rs, r, q);
    }
  }

  lemma SameEvidenceSameRecord(n: Names, p: Protocol, rs: seq<Receipt>, r: Receipt, q: Receipt)
    requires Counted(p, rs, r) && Counted(p, rs, q) && Genuine(n, r) && Genuine(n, q) && r.evidence == q.evidence
    ensures RecordOf(n, r) == RecordOf(n, q)
  {
  }

  ghost function Placed(n: Names, p: Protocol, inputs: seq<Trace>, rs: seq<Receipt>): Placement {
    PlacedFor(n, TraceRecords(n, inputs), Admit(n, p, rs))
  }

  lemma PlacedSees(n: Names, p: Protocol, inputs: seq<Trace>, rs: seq<Receipt>, t: Trace)
    requires CollisionFree(n) && (forall r :: r in rs ==> Genuine(n, r)) && t in TraceRecords(n, inputs)
    ensures SeesOnly(n, Seen(n, Placed(n, p, inputs, rs), t), PlacementOrder(Stable(Admit(n, p, rs))), t)
  {
    var a := Admit(n, p, rs);
    var ts, stable := TraceRecords(n, inputs), Stable(a);
    RetainedApart(n, inputs);
    StableDetermined(n, p, rs);
    SoleKeyedOnce(stable);
    var start := Start(n, ts, InvalidAfterDrift(a), RejectedAfterDrift(a), ClashingEvidence(DistinctEvidence(stable)));
    hide TraceRecords, Admit, CollisionFree, Genuine, Stable, KeysApart, KeyedOnce, SeesOnly, Seen, DigestDetermines;
    hide InvalidAfterDrift, RejectedAfterDrift, FirstRejections, SortCompact, ClashingEvidence, DistinctEvidence, SoleEvidence, Sort;
    PlacedSeen(n, ts, start, PlacementOrder(stable), t);
  }

  lemma OrderIsSole(n: Names, p: Protocol, rs: seq<Receipt>, t: Trace)
    requires CollisionFree(n) && forall r :: r in rs ==> Genuine(n, r)
    ensures forall x :: x in PlacementOrder(Stable(Admit(n, p, rs))) && Fits(n, t, x) <==> SoleRecord(n, p, rs, t, x)
  {
    var stable := Stable(Admit(n, p, rs));
    StableDetermined(n, p, rs);
    PlacedRecords(stable);
    hide Admit, Stable, CollisionFree, Genuine, PlacementOrder, SoleFor, Fits, SoleReceipt, DigestDetermines;
    forall x ensures x in PlacementOrder(stable) && Fits(n, t, x) <==> SoleRecord(n, p, rs, t, x) { SoleReceiptIff(n, p, rs, t, x); }
  }

  lemma PlacedMaps(n: Names, p: Protocol, inputs: seq<Trace>, rs: seq<Receipt>, t: Trace)
    requires CollisionFree(n) && (forall r :: r in rs ==> Genuine(n, r)) && t in TraceRecords(n, inputs)
    ensures var seen := Seen(n, Placed(n, p, inputs, rs), t);
            forall x :: && (seen.0 == Some(x) <==> IsScored(x) && SoleRecord(n, p, rs, t, x))
                        && (seen.1 == Some(x) <==> !IsScored(x) && SoleRecord(n, p, rs, t, x))
  {
    hide Placed, Seen, Admit, Stable, CollisionFree, Genuine, PlacementOrder, Fits, SoleRecord, TraceRecords, IsScored;
    PlacedSees(n, p, inputs, rs, t);
    OrderIsSole(n, p, rs, t);
  }

  lemma SoleKeyedOnce(rs: seq<Record>)
    requires DigestDetermines(rs)
    ensures KeyedOnce(PlacementOrder(rs))
  {
    PlacedRecords(rs);
    var zs := PlacementOrder(rs);
    hide PlacementOrder;
    forall i, j | 0 <= i < j < |zs| ensures zs[i].joinKey != zs[j].joinKey {
      assert zs[i] in zs && zs[j] in zs && zs[i] != zs[j];
    }
  }

  /** An execution is scored exactly when it is successful and unambiguous and has a sole receipt that carries a score. */
  lemma ScoredExactlyWhen(n: Names, p: Protocol, inputs: seq<Trace>, rs: seq<Receipt>, t: Trace, x: Record)
    requires CollisionFree(n) && (forall r :: r in rs ==> Genuine(n, r)) && t in TraceRecords(n, inputs)
    ensures OutcomeOf(n, Placed(n, p, inputs, rs), t) == ScoredOutcome(x) <==>
            !t.ambiguous && t.status.Success? && IsScored(x) && SoleRecord(n, p, rs, t, x)
  {
    hide Placed, SoleRecord, CollisionFree, Genuine, TraceRecords, ConflictKeys, ExecutionKey;
    PlacedMaps(n, p, inputs, rs, t);
  }

  /** And it carries a declared non-score exactly when its sole receipt declares one. */
  lemma DeclaredExactlyWhen(n: Names, p: Protocol, inputs: seq<Trace>, rs: seq<Receipt>, t: Trace, x: Record)
    requires CollisionFree(n) && (forall r :: r in rs ==> Genuine(n, r)) && t in TraceRecords(n, inputs)
    ensures OutcomeOf(n, Placed(n, p, inputs, rs), t) == DeclaredOutcome(x) <==>
            !t.ambiguous && t.status.Success? && !IsScored(x) && SoleRecord(n, p, rs, t, x)
  {
    hide Placed, SoleRecord, CollisionFree, Genuine, TraceRecords, ConflictKeys, ExecutionKey;
    PlacedMaps(n, p, inputs, rs, t);
    OneSole(n, p, rs, t);
    var seen := Seen(n, Placed(n, p, inputs, rs), t);
    assert seen.0.Some? ==> IsScored(seen.0.value) && SoleRecord(n, p, rs, t, seen.0.value);
  }

  lemma OneSole(n: Names, p: Protocol, rs: seq<Receipt>, t: Trace)
    requires forall r :: r in rs ==> Genuine(n, r)
    ensures forall x, y :: SoleRecord(n, p, rs, t, x) && SoleRecord(n, p, rs, t, y) ==> x == y
  {
    forall x, y | SoleRecord(n, p, rs, t, x) && SoleRecord(n, p, rs, t, y) ensures x == y {
      var r :| SoleReceipt(n, p, rs, t, r) && x == RecordOf(n, r);
      var q :| SoleReceipt(n, p, rs, t, q) && y == RecordOf(n, q);
      SameEvidenceSameRecord(n, p, rs, r, q);
    }
  }
}
