/** The joined dataset does not depend on the order of its inputs. */
module EvidenceOrder {
  import opened CodeUnits
  import opened Wrappers
  import opened Sorting
  import opened Grouping
  import opened EvidenceModel
  import opened EvidenceJoin
  import opened EvidenceAdmission
  import opened EvidenceTallies
  import opened EvidencePlacement

  lemma MapPermutes<A(!new), B>(f: A -> B, xs: seq<A>, ys: seq<A>)
    requires multiset(xs) == multiset(ys)
    ensures multiset(Map(f, xs)) == multiset(Map(f, ys))
  {
    MapIsGather(f, xs);
    MapIsGather(f, ys);
    GatherPermutes(xs, ys, (a: A) => [f(a)], (a: A) => [f(a)]);
  }

  lemma {:induction false} MapIsGather<A, B>(f: A -> B, xs: seq<A>)
    ensures Map(f, xs) == Gather(xs, (a: A) => [f(a)])
  {
    if xs != [] {
      var n := |xs| - 1;
      MapIsGather(f, xs[..n]);
      assert Map(f, xs) == Map(f, xs[..n]) + [f(xs[n])];
      var g := (a: A) => [f(a)];
      assert g(xs[n]) == [f(xs[n])];
    }
  }

  // ----- traces

  lemma DigestsPermute(n: Names, g: seq<Trace>, h: seq<Trace>)
    requires multiset(g) == multiset(h)
    ensures SortedDigests(n, g) == SortedDigests(n, h)
  {
    MapPermutes(DigestKey(n), g, h);
    SortStringsPermutes(Map(DigestKey(n), g), Map(DigestKey(n), h));
  }

  lemma SortStringsMembers(ts: seq<Text>)
    ensures |SortStrings(ts)| == |ts| && forall t :: t in SortStrings(ts) <==> t in ts
  {
    SortPermutes(ts, ByKey(Itself));
    SameMembers(SortStrings(ts), ts);
  }

  lemma DistinctDigests(n: Names, g: seq<Trace>)
    ensures var ds := Distinct(SortedDigests(n, g));
            NoDuplicates(ds) && forall d :: d in ds <==> exists t :: t in g && TraceDigest(n, t) == d
  {
    var digests := Map(DigestKey(n), g);
    SortStringsMembers(digests);
    var sorted := SortStrings(digests);
    KeysAre(sorted, Itself);
    KeysDistinct(sorted, Itself);
    var ds := Distinct(sorted);
    forall d ensures d in ds <==> exists t :: t in g && TraceDigest(n, t) == d {
      assert d in ds <==> d in digests by {
        if d in digests { assert Itself(d) in ds; }
        if d in ds { var x :| x in sorted && Itself(x) == d; }
      }
      if d in digests {
        var i :| 0 <= i < |digests| && digests[i] == d;
        assert g[i] in g && TraceDigest(n, g[i]) == d;
      }
      if t :| t in g && TraceDigest(n, t) == d {
        var i :| 0 <= i < |g| && g[i] == t;
        assert digests[i] == d;
      }
    }
  }

  ghost predicate AllAlike(g: seq<Trace>) { forall a, b :: a in g && b in g ==> a == b }

  /** One distinct digest means all rows are the same trace. */
  lemma OneDigest(n: Names, g: seq<Trace>)
    requires CollisionFree(n)
    ensures |Distinct(SortedDigests(n, g))| <= 1 <==> AllAlike(g)
  {
    DistinctDigests(n, g);
    hide SortedDigests, Distinct;
    var ds := Distinct(SortedDigests(n, g));
    if |ds| <= 1 {
      forall a, b | a in g && b in g ensures a == b {
        assert TraceDigest(n, a) in ds && TraceDigest(n, b) in ds;
        assert n.digest(TraceBody(a)) == n.digest(TraceBody(b));
      }
    } else {
      assert ds[0] in ds && ds[1] in ds && ds[0] != ds[1];
      var a :| a in g && TraceDigest(n, a) == ds[0];
      var b :| b in g && TraceDigest(n, b) == ds[1];
      assert a != b;
    }
  }

  lemma OneTracePermutes(n: Names, g: seq<Trace>, h: seq<Trace>)
    requires CollisionFree(n) && multiset(g) == multiset(h)
    ensures OneTrace(n, g) == OneTrace(n, h)
  {
    DigestsPermute(n, g, h);
    SameSize(g, h);
    OneDigest(n, g);
    SameMembers(g, h);
    hide SortedDigests, Distinct, CollisionFree;
    if g != [] { assert h[0] in h && g[0] in g; }
  }

  lemma TraceGroupPermutes(n: Names, id: Text, g: seq<Trace>, h: seq<Trace>)
    requires CollisionFree(n) && multiset(g) == multiset(h)
    ensures OneTrace(n, g) == OneTrace(n, h)
    ensures RepeatedTrace(n, id, g) == RepeatedTrace(n, id, h) && ClashingTrace(n, id, g) == ClashingTrace(n, id, h)
    ensures ClashingGroup(n, id, g) == ClashingGroup(n, id, h)
  {
    OneTracePermutes(n, g, h);
    DigestsPermute(n, g, h);
    SameSize(g, h);
    hide OneTrace, SortedDigests, Distinct, CollisionFree;
  }

  lemma OnlyPermutes<T>(g: seq<T>, h: seq<T>)
    requires multiset(g) == multiset(h)
    ensures Only(g) == Only(h)
  {
    SameSize(g, h);
    if |g| == 1 {
      assert g == [g[0]] && h == [h[0]];
      assert g[0] in multiset(h);
    }
  }

  lemma IdentityPermutes(n: Names, ts: seq<Trace>, us: seq<Trace>)
    requires CollisionFree(n) && multiset(ts) == multiset(us)
    ensures multiset(AfterIdentity(n, ts)) == multiset(AfterIdentity(n, us))
    ensures multiset(RepeatedTraces(n, ts)) == multiset(RepeatedTraces(n, us))
    ensures multiset(ClashingIds(n, ts)) == multiset(ClashingIds(n, us))
  {
    hide OneTrace, RepeatedTrace, ClashingTrace, ClashingGroup, Group, Keys, Gather;
    var ks, ls := Keys(ts, TraceIdKey), Keys(us, TraceIdKey);
    KeysPermute(ts, us, TraceIdKey);
    forall id ensures OneById(n, ts)(id) == OneById(n, us)(id)
                   && RepeatedById(n, ts)(id) == RepeatedById(n, us)(id) && ClashingById(n, ts)(id) == ClashingById(n, us)(id) {
      GroupPermutes(ts, us, TraceIdKey, id);
      TraceGroupPermutes(n, id, Group(ts, TraceIdKey, id), Group(us, TraceIdKey, id));
    }
    GatherPermutes(ks, ls, OneById(n, ts), OneById(n, us));
    GatherPermutes(ks, ls, RepeatedById(n, ts), RepeatedById(n, us));
    GatherPermutes(ks, ls, ClashingById(n, ts), ClashingById(n, us));
  }

  lemma LogicalPermutes(n: Names, ts: seq<Trace>, us: seq<Trace>)
    requires CollisionFree(n) && multiset(ts) == multiset(us)
    ensures multiset(UniqueTraces(n, ts)) == multiset(UniqueTraces(n, us))
    ensures multiset(ClashingTraces(n, ts)) == multiset(ClashingTraces(n, us))
  {
    hide ClashingGroup, Group, Keys, Gather, ClashingIds, AfterIdentity;
    IdentityPermutes(n, ts, us);
    var xs, ys := AfterIdentity(n, ts), AfterIdentity(n, us);
    KeysPermute(xs, ys, LogicalBy(n));
    forall k ensures OnlyByLogical(n, xs)(k) == OnlyByLogical(n, ys)(k) && ClashByLogical(n, xs)(k) == ClashByLogical(n, ys)(k) {
      GroupPermutes(xs, ys, LogicalBy(n), k);
      OnlyPermutes(Group(xs, LogicalBy(n), k), Group(ys, LogicalBy(n), k));
      TraceGroupPermutes(n, k, Group(xs, LogicalBy(n), k), Group(ys, LogicalBy(n), k));
    }
    GatherPermutes(Keys(xs, LogicalBy(n)), Keys(ys, LogicalBy(n)), OnlyByLogical(n, xs), OnlyByLogical(n, ys));
    GatherPermutes(Keys(xs, LogicalBy(n)), Keys(ys, LogicalBy(n)), ClashByLogical(n, xs), ClashByLogical(n, ys));
  }

  lemma ExecutionKeyTells(n: Names, a: Trace, b: Trace)
    requires CollisionFree(n) && ExecutionKey(n, a) == ExecutionKey(n, b)
    ensures a == b
  {
    assert n.digest(TraceBody(a)) == n.digest(TraceBody(b));
  }

  /** The retained traces come out in one order. */
  lemma RecordsPermute(n: Names, ts: seq<Trace>, us: seq<Trace>)
    requires CollisionFree(n) && multiset(ts) == multiset(us)
    ensures TraceRecords(n, ts) == TraceRecords(n, us)
  {
    hide UniqueTraces;
    LogicalPermutes(n, ts, us);
    var key := ExecutionBy(n);
    forall a, b | key(a) == key(b) ensures a == b { ExecutionKeyTells(n, a, b); }
    ByKeyPreorder(key);
    ByKeyDistinguishes(key, UniqueTraces(n, ts));
    SortForgetsOrder(UniqueTraces(n, ts), UniqueTraces(n, us), ByKey(key));
  }

  // ----- receipts

  /**
   * What the local verifier guarantees of a receipt it issued: the digest is the evidence's, trust has one
   * reason text, and a score lies in the canonical range.
   */
  ghost predicate Genuine(n: Names, r: Receipt) {
    r.Authentic? ==>
      && r.evidenceDigest == n.digest(EvidenceBody(r.evidence)) && (r.trusted ==> r.reason == n.trustedReason)
      && (r.evidence.outcome.Scored? ==> 0.0 <= r.evidence.outcome.score <= 1.0)
  }

  predicate RowSound(n: Names, row: Row) { row.digest == n.digest(EvidenceBody(row.evidence)) }

  lemma AdmitPermutes(n: Names, p: Protocol, rs: seq<Receipt>, us: seq<Receipt>)
    requires multiset(rs) == multiset(us)
    ensures var a, b := Admit(n, p, rs), Admit(n, p, us);
            && multiset(a.invalid) == multiset(b.invalid) && multiset(a.rejected) == multiset(b.rejected)
            && multiset(a.admitted) == multiset(b.admitted) && multiset(a.contexts) == multiset(b.contexts)
            && multiset(a.assessmentContexts) == multiset(b.assessmentContexts)
  {
    hide Gather;
    GatherPermutes(rs, us, InvalidFrom(p), InvalidFrom(p));
    GatherPermutes(rs, us, RejectedFrom(n, p), RejectedFrom(n, p));
    GatherPermutes(rs, us, AdmittedFrom(n, p), AdmittedFrom(n, p));
    GatherPermutes(rs, us, ContextFrom(n), ContextFrom(n));
    GatherPermutes(rs, us, AssessmentContextFrom, AssessmentContextFrom);
  }

  lemma DistinctPermutes(xs: seq<Text>, ys: seq<Text>)
    requires multiset(xs) == multiset(ys)
    ensures SortStrings(Distinct(xs)) == SortStrings(Distinct(ys))
  {
    KeysPermute(xs, ys, Itself);
    SortStringsPermutes(Distinct(xs), Distinct(ys));
  }

  /** Two admissions that list the same things, in any order. */
  ghost predicate SameLists(a: Admission, b: Admission) {
    && multiset(a.invalid) == multiset(b.invalid) && multiset(a.rejected) == multiset(b.rejected)
    && multiset(a.admitted) == multiset(b.admitted) && multiset(a.contexts) == multiset(b.contexts)
  }

  lemma DriftPermutes(a: Admission, b: Admission)
    requires SameLists(a, b)
    ensures Contexts(a) == Contexts(b) && multiset(Stable(a)) == multiset(Stable(b))
    ensures multiset(InvalidAfterDrift(a)) == multiset(InvalidAfterDrift(b))
    ensures multiset(RejectedAfterDrift(a)) == multiset(RejectedAfterDrift(b))
  {
    DistinctPermutes(a.contexts, b.contexts);
    hide Gather;
    GatherPermutes(a.admitted, b.admitted, DriftDiagnostic, DriftDiagnostic);
    GatherPermutes(a.admitted, b.admitted, DriftRejection, DriftRejection);
  }

  /** Every admitted record comes from an admitted receipt. */
  lemma AdmittedFromReceipt(n: Names, p: Protocol, rs: seq<Receipt>, x: Record)
    ensures x in Admit(n, p, rs).admitted <==> exists r :: r in rs && Admitted(p, r) && x == RecordOf(n, r)
  {
    GatherMembers(rs, AdmittedFrom(n, p));
    if x in Admit(n, p, rs).admitted {
      var r :| r in rs && x in AdmittedFrom(n, p)(r);
      assert r in rs && Admitted(p, r) && x == RecordOf(n, r);
    }
    if r :| r in rs && Admitted(p, r) && x == RecordOf(n, r) {
      assert x in AdmittedFrom(n, p)(r);
    }
  }

  lemma ContextListed(n: Names, p: Protocol, rs: seq<Receipt>, r: Receipt)
    requires r in rs && r.Authentic?
    ensures n.digest(ContextOf(r.context)) in Contexts(Admit(n, p, rs))
  {
    var c := n.digest(ContextOf(r.context));
    GatherMembers(rs, ContextFrom(n));
    assert c in ContextFrom(n)(r);
    var contexts := Admit(n, p, rs).contexts;
    KeysAre(contexts, Itself);
    assert Itself(c) in Distinct(contexts);
    SortStringsMembers(Distinct(contexts));
  }

  lemma OneContext(n: Names, p: Protocol, rs: seq<Receipt>, r: Receipt, q: Receipt)
    requires CollisionFree(n) && !Drifts(Admit(n, p, rs))
    requires r in rs && q in rs && r.Authentic? && q.Authentic?
    ensures r.context == q.context
  {
    ContextListed(n, p, rs, r);
    ContextListed(n, p, rs, q);
    var cs := Contexts(Admit(n, p, rs));
    var i :| 0 <= i < |cs| && cs[i] == n.digest(ContextOf(r.context));
    var j :| 0 <= j < |cs| && cs[j] == n.digest(ContextOf(q.context));
    assert i == j;
  }

  lemma RecordDetermined(n: Names, p: Protocol, r: Receipt, q: Receipt)
    requires CollisionFree(n) && Genuine(n, r) && Genuine(n, q) && Admitted(p, r) && Admitted(p, q)
    requires r.context == q.context && r.evidenceDigest == q.evidenceDigest
    ensures RecordOf(n, r) == RecordOf(n, q)
  {
    assert n.digest(EvidenceBody(r.evidence)) == n.digest(EvidenceBody(q.evidence));
  }

  ghost predicate DigestDetermines(rs: seq<Record>) {
    forall a, b :: a in rs && b in rs && a.row.digest == b.row.digest ==> a == b
  }

  /** Within one verification context an evidence digest determines the whole admitted record. */
  lemma StableDetermined(n: Names, p: Protocol, rs: seq<Receipt>)
    requires CollisionFree(n) && forall r :: r in rs ==> Genuine(n, r)
    ensures DigestDetermines(Stable(Admit(n, p, rs)))
  {
    var a := Admit(n, p, rs);
    hide Admit, Drifts, Rejection;
    if !Drifts(a) {
      forall x, y | x in a.admitted && y in a.admitted && x.row.digest == y.row.digest ensures x == y {
        AdmittedFromReceipt(n, p, rs, x);
        AdmittedFromReceipt(n, p, rs, y);
        var r :| r in rs && Admitted(p, r) && x == RecordOf(n, r);
        var q :| q in rs && Admitted(p, q) && y == RecordOf(n, q);
        OneContext(n, p, rs, r, q);
        RecordDetermined(n, p, r, q);
      }
    }
  }

  lemma FirstPermutes(g: seq<Record>, h: seq<Record>, digest: Text)
    requires multiset(g) == multiset(h) && forall a, b :: a in g && b in g ==> a == b
    ensures First(g) == First(h) && RepeatedRow(digest, g) == RepeatedRow(digest, h)
  {
    SameSize(g, h);
    SameMembers(g, h);
    if g != [] { assert h[0] in h && g[0] in g; }
  }

  lemma DistinctEvidencePermutes(xs: seq<Record>, ys: seq<Record>)
    requires multiset(xs) == multiset(ys) && DigestDetermines(xs)
    ensures multiset(DistinctEvidence(xs)) == multiset(DistinctEvidence(ys))
    ensures multiset(RepeatedEvidence(xs)) == multiset(RepeatedEvidence(ys))
  {
    hide Group, Keys, Gather, RepeatedRow, First;
    KeysPermute(xs, ys, RecordDigest);
    forall d ensures FirstByDigest(xs)(d) == FirstByDigest(ys)(d) && RepeatedByDigest(xs)(d) == RepeatedByDigest(ys)(d) {
      GroupPermutes(xs, ys, RecordDigest, d);
      GroupMembers(xs, RecordDigest, d);
      FirstPermutes(Group(xs, RecordDigest, d), Group(ys, RecordDigest, d), d);
    }
    GatherPermutes(Keys(xs, RecordDigest), Keys(ys, RecordDigest), FirstByDigest(xs), FirstByDigest(ys));
    GatherPermutes(Keys(xs, RecordDigest), Keys(ys, RecordDigest), RepeatedByDigest(xs), RepeatedByDigest(ys));
  }

  /** The distinct evidence is the evidence: one record per digest, nothing lost. */
  lemma DistinctEvidenceMembers(rs: seq<Record>)
    requires DigestDetermines(rs)
    ensures forall x :: x in DistinctEvidence(rs) <==> x in rs
    ensures NoDuplicates(DistinctEvidence(rs))
  {
    hide First;
    KeysAre(rs, RecordDigest);
    KeysDistinct(rs, RecordDigest);
    GatherMembers(Keys(rs, RecordDigest), FirstByDigest(rs));
    forall d ensures forall x :: x in FirstByDigest(rs)(d) <==> x in rs && x.row.digest == d {
      GroupMembers(rs, RecordDigest, d);
      FirstIsAll(Group(rs, RecordDigest, d));
    }
    forall x ensures x in DistinctEvidence(rs) <==> x in rs {
      if x in rs { assert RecordDigest(x) in Keys(rs, RecordDigest) && x in FirstByDigest(rs)(RecordDigest(x)); }
    }
    forall d ensures NoDuplicates(FirstByDigest(rs)(d)) { FirstSingle(Group(rs, RecordDigest, d)); }
    GatherNoDuplicates(Keys(rs, RecordDigest), FirstByDigest(rs));
  }

  lemma FirstIsAll(g: seq<Record>)
    requires forall a, b :: a in g && b in g ==> a == b
    ensures forall x :: x in First(g) <==> x in g
  {
    if g != [] { assert g[0] in g; }
  }

  lemma FirstSingle<T>(g: seq<T>)
    ensures NoDuplicates(First(g))
  {
  }

  lemma RowsPermute(g: seq<Record>, h: seq<Record>)
    requires multiset(g) == multiset(h) && DigestDetermines(g)
    ensures SortStrings(Map(RecordDigest, g)) == SortStrings(Map(RecordDigest, h))
    ensures SortRows(Map(RowOfRecord, g)) == SortRows(Map(RowOfRecord, h))
  {
    MapPermutes(RecordDigest, g, h);
    SortStringsPermutes(Map(RecordDigest, g), Map(RecordDigest, h));
    MapPermutes(RowOfRecord, g, h);
    var rows := Map(RowOfRecord, g);
    forall a, b | a in rows && b in rows && DigestOf(a) == DigestOf(b) ensures a == b {
      var i :| 0 <= i < |rows| && rows[i] == a;
      var j :| 0 <= j < |rows| && rows[j] == b;
      assert g[i] in g && g[j] in g && RowOfRecord(g[i]) == a && RowOfRecord(g[j]) == b;
    }
    ByKeyPreorder(DigestOf);
    ByKeyDistinguishes(DigestOf, rows);
    SortForgetsOrder(rows, Map(RowOfRecord, h), ByKey(DigestOf));
  }

  lemma ClashPermutes(k: Text, g: seq<Record>, h: seq<Record>)
    requires multiset(g) == multiset(h) && DigestDetermines(g)
    ensures Only(g) == Only(h) && ClashingRows(k, g) == ClashingRows(k, h)
  {
    hide SortRows, SortStrings, Map, Only;
    SameSize(g, h);
    OnlyPermutes(g, h);
    RowsPermute(g, h);
  }

  lemma SolePermutes(xs: seq<Record>, ys: seq<Record>)
    requires multiset(xs) == multiset(ys) && DigestDetermines(xs)
    ensures multiset(SoleEvidence(xs)) == multiset(SoleEvidence(ys))
    ensures multiset(ClashingEvidence(xs)) == multiset(ClashingEvidence(ys))
  {
    hide Group, Keys, Gather, ClashingRows, Only;
    KeysPermute(xs, ys, RecordKey);
    forall k ensures OnlyByKey(xs)(k) == OnlyByKey(ys)(k) && ClashByKey(xs)(k) == ClashByKey(ys)(k) {
      GroupPermutes(xs, ys, RecordKey, k);
      GroupMembers(xs, RecordKey, k);
      ClashPermutes(k, Group(xs, RecordKey, k), Group(ys, RecordKey, k));
    }
    GatherPermutes(Keys(xs, RecordKey), Keys(ys, RecordKey), OnlyByKey(xs), OnlyByKey(ys));
    GatherPermutes(Keys(xs, RecordKey), Keys(ys, RecordKey), ClashByKey(xs), ClashByKey(ys));
  }

  lemma SoleMembers(rs: seq<Record>)
    ensures forall x :: x in SoleEvidence(rs) ==> x in rs && Group(rs, RecordKey, x.joinKey) == [x]
    ensures forall x :: x in rs && |Group(rs, RecordKey, x.joinKey)| == 1 ==> x in SoleEvidence(rs)
  {
    GatherMembers(Keys(rs, RecordKey), OnlyByKey(rs));
    KeysAre(rs, RecordKey);
    forall x | x in SoleEvidence(rs) ensures x in rs && Group(rs, RecordKey, x.joinKey) == [x] {
      var k :| k in Keys(rs, RecordKey) && x in OnlyByKey(rs)(k);
      GroupMembers(rs, RecordKey, k);
      var g := Group(rs, RecordKey, k);
      assert |g| == 1 && g == [g[0]] && x == g[0];
      assert x.joinKey == k;
    }
    forall x | x in rs && |Group(rs, RecordKey, x.joinKey)| == 1 ensures x in SoleEvidence(rs) {
      GroupMembers(rs, RecordKey, x.joinKey);
      assert RecordKey(x) in Keys(rs, RecordKey) && x in OnlyByKey(rs)(x.joinKey);
    }
  }

  // ----- sort keys tell elements apart

  predicate DiagnosticSound(n: Names, d: Diagnostic) {
    match d.evidence
    case None => d.digest == None
    case Some(e) => d.digest == Some(n.digest(EvidenceBody(e)))
  }

  ghost predicate RecordsSound(n: Names, rs: seq<Record>) { forall x :: x in rs ==> RowSound(n, x.row) }
  ghost predicate RejectedSound(n: Names, xs: seq<Rejected>) { forall x :: x in xs ==> RowSound(n, x.row) }
  ghost predicate DiagnosticsSound(n: Names, xs: seq<Diagnostic>) { forall x :: x in xs ==> DiagnosticSound(n, x) }
  predicate RowsSound(n: Names, rows: seq<Row>) { forall i :: 0 <= i < |rows| ==> RowSound(n, rows[i]) }
  ghost predicate ConflictsSound(n: Names, xs: seq<Conflict>) { forall x :: x in xs ==> RowsSound(n, x.rows) }

  lemma AdmitSound(n: Names, p: Protocol, rs: seq<Receipt>)
    requires forall r :: r in rs ==> Genuine(n, r)
    ensures var a := Admit(n, p, rs);
            DiagnosticsSound(n, a.invalid) && RejectedSound(n, a.rejected) && RecordsSound(n, a.admitted)
  {
    hide Gather, Rejection;
    GatherMembers(rs, InvalidFrom(p));
    GatherMembers(rs, RejectedFrom(n, p));
    GatherMembers(rs, AdmittedFrom(n, p));
  }

  lemma DriftSound(n: Names, a: Admission)
    requires DiagnosticsSound(n, a.invalid) && RejectedSound(n, a.rejected) && RecordsSound(n, a.admitted)
    ensures DiagnosticsSound(n, InvalidAfterDrift(a)) && RejectedSound(n, RejectedAfterDrift(a)) && RecordsSound(n, Stable(a))
  {
    hide Gather, Drifts;
    GatherMembers(a.admitted, DriftDiagnostic);
    GatherMembers(a.admitted, DriftRejection);
  }

  lemma RowKeyTells(n: Names, a: Row, b: Row)
    requires CollisionFree(n) && RowSound(n, a) && RowSound(n, b) && a.digest == b.digest && a.provenance == b.provenance
    ensures a == b
  {
    assert n.digest(EvidenceBody(a.evidence)) == n.digest(EvidenceBody(b.evidence));
  }

  lemma RejectedSorts(n: Names, xs: seq<Rejected>, ys: seq<Rejected>)
    requires CollisionFree(n) && multiset(xs) == multiset(ys) && RejectedSound(n, xs)
    ensures SortCompact(n, xs, RejectedKey) == SortCompact(n, ys, RejectedKey)
  {
    forall a, b | a in xs && b in xs && RejectedKey(a) == RejectedKey(b) ensures a == b { RowKeyTells(n, a.row, b.row); }
    SortCompactPermutes(n, xs, ys, RejectedKey);
  }

  lemma DiagnosticsSort(n: Names, xs: seq<Diagnostic>, ys: seq<Diagnostic>)
    requires CollisionFree(n) && multiset(xs) == multiset(ys) && DiagnosticsSound(n, xs)
    ensures SortCompact(n, xs, DiagnosticKey) == SortCompact(n, ys, DiagnosticKey)
  {
    forall a, b | a in xs && b in xs && DiagnosticKey(a) == DiagnosticKey(b) ensures a == b { DiagnosticKeyTells(n, a, b); }
    SortCompactPermutes(n, xs, ys, DiagnosticKey);
  }

  lemma DiagnosticKeyTells(n: Names, a: Diagnostic, b: Diagnostic)
    requires CollisionFree(n) && DiagnosticSound(n, a) && DiagnosticSound(n, b) && DiagnosticKey(a) == DiagnosticKey(b)
    ensures a == b
  {
    if a.evidence.Some? {
      assert n.digest(EvidenceBody(a.evidence.value)) == n.digest(EvidenceBody(b.evidence.value));
    }
  }

  lemma ConflictKeyTells(n: Names, a: Conflict, b: Conflict)
    requires CollisionFree(n) && RowsSound(n, a.rows) && RowsSound(n, b.rows) && ConflictKey(a) == ConflictKey(b)
    ensures a == b
  {
    var ka, kb := ConflictKey(a), ConflictKey(b);
    assert |ka.rows| == |a.rows| && |kb.rows| == |b.rows|;
    forall i | 0 <= i < |a.rows| ensures a.rows[i] == b.rows[i] {
      assert ka.rows[i] == (a.rows[i].digest, a.rows[i].provenance) && kb.rows[i] == (b.rows[i].digest, b.rows[i].provenance);
      RowKeyTells(n, a.rows[i], b.rows[i]);
    }
  }

  lemma ConflictsSort(n: Names, xs: seq<Conflict>, ys: seq<Conflict>)
    requires CollisionFree(n) && multiset(xs) == multiset(ys) && ConflictsSound(n, xs)
    ensures SortCompact(n, xs, ConflictKey) == SortCompact(n, ys, ConflictKey)
  {
    forall a, b | a in xs && b in xs && ConflictKey(a) == ConflictKey(b) ensures a == b { ConflictKeyTells(n, a, b); }
    SortCompactPermutes(n, xs, ys, ConflictKey);
  }

  ghost predicate DuplicatesSound(n: Names, xs: seq<Duplicate>) {
    forall x :: x in xs ==> RowSound(n, x.row) && x.row.digest == x.digest
  }

  lemma DuplicatesSort(n: Names, xs: seq<Duplicate>, ys: seq<Duplicate>)
    requires CollisionFree(n) && multiset(xs) == multiset(ys) && DuplicatesSound(n, xs)
    ensures SortCompact(n, xs, DuplicateKey) == SortCompact(n, ys, DuplicateKey)
  {
    forall a, b | a in xs && b in xs && DuplicateKey(a) == DuplicateKey(b) ensures a == b { RowKeyTells(n, a.row, b.row); }
    SortCompactPermutes(n, xs, ys, DuplicateKey);
  }

  lemma RepeatedSound(n: Names, rs: seq<Record>)
    requires RecordsSound(n, rs)
    ensures DuplicatesSound(n, RepeatedEvidence(rs))
  {
    GatherMembers(Keys(rs, RecordDigest), RepeatedByDigest(rs));
    forall x | x in RepeatedEvidence(rs) ensures RowSound(n, x.row) && x.row.digest == x.digest {
      var d :| d in Keys(rs, RecordDigest) && x in RepeatedByDigest(rs)(d);
      GroupMembers(rs, RecordDigest, d);
      assert Group(rs, RecordDigest, d)[0] in Group(rs, RecordDigest, d);
    }
  }

  lemma RowsOfSound(n: Names, g: seq<Record>)
    requires RecordsSound(n, g)
    ensures RowsSound(n, SortRows(Map(RowOfRecord, g)))
  {
    var rows := Map(RowOfRecord, g);
    SortPermutes(rows, ByKey(DigestOf));
    SameMembers(SortRows(rows), rows);
    forall i | 0 <= i < |SortRows(rows)| ensures RowSound(n, SortRows(rows)[i]) {
      assert SortRows(rows)[i] in rows;
      var j :| 0 <= j < |rows| && rows[j] == SortRows(rows)[i];
      assert g[j] in g && RowOfRecord(g[j]) == rows[j];
    }
  }

  lemma ClashingSound(n: Names, rs: seq<Record>)
    requires RecordsSound(n, rs)
    ensures ConflictsSound(n, ClashingEvidence(rs))
  {
    hide SortRows, SortStrings;
    GatherMembers(Keys(rs, RecordKey), ClashByKey(rs));
    forall x | x in ClashingEvidence(rs) ensures RowsSound(n, x.rows) {
      var k :| k in Keys(rs, RecordKey) && x in ClashByKey(rs)(k);
      GroupMembers(rs, RecordKey, k);
      RowsOfSound(n, Group(rs, RecordKey, k));
    }
  }

  // ----- placement

  /** Placements that agree up to the order of the two lists still to be sorted. */
  predicate Similar(s: Placement, t: Placement) {
    && s.scored == t.scored && s.declared == t.declared && s.rejected == t.rejected
    && s.orphan == t.orphan && s.abstained == t.abstained && s.missing == t.missing
    && multiset(s.invalid) == multiset(t.invalid) && multiset(s.conflicting) == multiset(t.conflicting)
  }

  ghost predicate PlacementSound(n: Names, s: Placement) {
    DiagnosticsSound(n, s.invalid) && ConflictsSound(n, s.conflicting)
  }

  lemma InvalidSimilar(s: Placement, t: Placement, d: Diagnostic)
    requires Similar(s, t)
    ensures Similar(s.(invalid := s.invalid + [d]), t.(invalid := t.invalid + [d]))
  {
    AppendPermutes(s.invalid, t.invalid, d);
  }

  lemma MapsSimilar(
      s: Placement, t: Placement, scored: map<Text, Record>, declared: map<Text, Record>, rejected: map<Text, Rejected>,
      abstained: seq<Abstention>, missing: seq<Missing>)
    requires Similar(s, t)
    ensures Similar(s.(scored := scored, declared := declared, rejected := rejected, abstained := abstained, missing := missing),
                    t.(scored := scored, declared := declared, rejected := rejected, abstained := abstained, missing := missing))
  {
  }

  lemma SimilarMaps(s: Placement, t: Placement)
    requires Similar(s, t)
    ensures s.scored == t.scored && s.declared == t.declared && s.rejected == t.rejected
    ensures s.abstained == t.abstained && s.missing == t.missing
  {
  }

  lemma PlaceOnSimilar(n: Names, x: Trace, s: Placement, t: Placement, r: Record)
    requires Similar(s, t)
    ensures Similar(PlaceOn(n, x, s, r), PlaceOn(n, x, t, r))
  {
    hide RowDiagnostic, ExecutionKey, Similar;
    var e, key := r.row.evidence, ExecutionKey(n, x);
    var s', t' := PlaceOn(n, x, s, r), PlaceOn(n, x, t, r);
    SimilarMaps(s, t);
    MapsSimilar(s, t, s'.scored, s'.declared, s'.rejected, s'.abstained, s'.missing);
    var u := s.(scored := s'.scored, declared := s'.declared, rejected := s'.rejected, abstained := s'.abstained, missing := s'.missing);
    var v := t.(scored := s'.scored, declared := s'.declared, rejected := s'.rejected, abstained := s'.abstained, missing := s'.missing);
    if e.producedAt < x.completedAt {
      InvalidSimilar(u, v, RowDiagnostic(r.row, PredatesCompletion));
    } else if e.outcome.NotScored? && e.outcome.kind.DeclaredInvalid? {
      InvalidSimilar(u, v, RowDiagnostic(r.row, DeclaredReason(e.outcome.reasonCode)));
    }
  }

  lemma PlaceSimilar(n: Names, ts: seq<Trace>, s: Placement, t: Placement, r: Record)
    requires Similar(s, t)
    ensures Similar(Place(n, ts, s, r), Place(n, ts, t, r))
  {
    hide TraceIndex, LineageMatches, OrphanReason, RowDiagnostic, LineageConflict, PlaceOn;
    var index := TraceIndex(n, ts);
    if r.joinKey in index {
      PlaceOnSimilar(n, index[r.joinKey], s, t, r);
      AppendPermutes(s.conflicting, t.conflicting, LineageConflict(r));
    }
  }

  lemma AppendPermutes<T>(xs: seq<T>, ys: seq<T>, x: T)
    requires multiset(xs) == multiset(ys)
    ensures multiset(xs + [x]) == multiset(ys + [x])
  {
  }

  lemma PlaceSound(n: Names, ts: seq<Trace>, s: Placement, r: Record)
    requires PlacementSound(n, s) && RowSound(n, r.row)
    ensures PlacementSound(n, Place(n, ts, s, r))
  {
    hide TraceIndex, LineageMatches, OrphanReason, RowSound;
    DiagnosticOfSound(n, r.row);
  }

  lemma DiagnosticOfSound(n: Names, row: Row)
    requires RowSound(n, row)
    ensures forall reason :: DiagnosticSound(n, RowDiagnostic(row, reason))
  {
  }

  lemma {:induction false} PlaceAllSimilar(n: Names, ts: seq<Trace>, s: Placement, t: Placement, rs: seq<Record>)
    requires Similar(s, t) && PlacementSound(n, s) && RecordsSound(n, rs)
    ensures Similar(PlaceAll(n, ts, s, rs), PlaceAll(n, ts, t, rs)) && PlacementSound(n, PlaceAll(n, ts, s, rs))
  {
    hide Place, PlacementSound, Similar;
    if rs != [] {
      var k := |rs| - 1;
      DropLast(rs);
      assert rs[k] in rs;
      PlaceAllSimilar(n, ts, s, t, rs[..k]);
      PlaceSimilar(n, ts, PlaceAll(n, ts, s, rs[..k]), PlaceAll(n, ts, t, rs[..k]), rs[k]);
      PlaceSound(n, ts, PlaceAll(n, ts, s, rs[..k]), rs[k]);
    }
  }

  /** Admissions that list the same things place their evidence alike. */
  lemma PlacedPermutes(n: Names, ts: seq<Trace>, a: Admission, b: Admission)
    requires CollisionFree(n) && SameLists(a, b) && DigestDetermines(Stable(a))
    requires DiagnosticsSound(n, a.invalid) && RejectedSound(n, a.rejected) && RecordsSound(n, a.admitted)
    ensures Similar(PlacedFor(n, ts, a), PlacedFor(n, ts, b)) && PlacementSound(n, PlacedFor(n, ts, a))
  {
    DriftPermutes(a, b);
    DriftSound(n, a);
    hide Stable, InvalidAfterDrift, RejectedAfterDrift, FirstRejections, SortCompact, Place, PlaceAll, CollisionFree;
    hide DistinctEvidence, SoleEvidence, ClashingEvidence, Sort;
    RejectedSorts(n, RejectedAfterDrift(a), RejectedAfterDrift(b));
    DistinctEvidencePermutes(Stable(a), Stable(b));
    DistinctEvidenceMembers(Stable(a));
    var xs, ys := DistinctEvidence(Stable(a)), DistinctEvidence(Stable(b));
    SolePermutes(xs, ys);
    ClashingSound(n, xs);
    SoleSorts(n, xs, SoleEvidence(ys));
    PlaceAllSimilar(
      n, ts, Start(n, ts, InvalidAfterDrift(a), RejectedAfterDrift(a), ClashingEvidence(xs)),
      Start(n, ts, InvalidAfterDrift(b), RejectedAfterDrift(b), ClashingEvidence(ys)),
      Sort(SoleEvidence(xs), ByKey(RecordDigest)));
  }

  lemma SoleSorts(n: Names, xs: seq<Record>, soles: seq<Record>)
    requires DigestDetermines(xs) && RecordsSound(n, xs) && multiset(SoleEvidence(xs)) == multiset(soles)
    ensures Sort(SoleEvidence(xs), ByKey(RecordDigest)) == Sort(soles, ByKey(RecordDigest))
    ensures RecordsSound(n, Sort(SoleEvidence(xs), ByKey(RecordDigest)))
  {
    var zs := SoleEvidence(xs);
    hide SoleEvidence;
    SoleMembers(xs);
    ByKeyPreorder(RecordDigest);
    ByKeyDistinguishes(RecordDigest, zs);
    SortForgetsOrder(zs, soles, ByKey(RecordDigest));
    SortPermutes(zs, ByKey(RecordDigest));
    SameMembers(Sort(zs, ByKey(RecordDigest)), zs);
  }

  // ----- the theorem

  lemma {:induction false} GatherSame<A(!new), B>(xs: seq<A>, f: A -> seq<B>, g: A -> seq<B>)
    requires forall x :: x in xs ==> f(x) == g(x)
    ensures Gather(xs, f) == Gather(xs, g)
  {
    if xs != [] {
      DropLast(xs);
      assert xs[|xs| - 1] in xs;
      GatherSame(xs[..|xs| - 1], f, g);
    }
  }

  lemma OutcomeSimilar(n: Names, s: Placement, t: Placement, x: Trace)
    requires Similar(s, t)
    ensures OutcomeOf(n, s, x) == OutcomeOf(n, t, x)
  {
    SameMembers(s.conflicting, t.conflicting);
  }

  lemma ExecutionsSimilar(n: Names, p: Protocol, s: Placement, t: Placement, ts: seq<Trace>)
    requires Similar(s, t)
    ensures Executions(n, p, s, ts) == Executions(n, p, t, ts)
    ensures Gather(ts, MissingFrom(n, s)) == Gather(ts, MissingFrom(n, t))
  {
    hide Similar, OutcomeOf, TraceAdmissible, Sort;
    forall x ensures OutcomeOf(n, s, x) == OutcomeOf(n, t, x) { OutcomeSimilar(n, s, t, x); }
    GatherSame(ts, ExecutionsBy(n, p, s), ExecutionsBy(n, p, t));
    GatherSame(ts, MissingFrom(n, s), MissingFrom(n, t));
  }

  lemma TraceListsSort(n: Names, ts: seq<Trace>, us: seq<Trace>)
    requires CollisionFree(n) && multiset(ts) == multiset(us)
    ensures SortCompact(n, RepeatedTraces(n, ts), DuplicateTraceKey) == SortCompact(n, RepeatedTraces(n, us), DuplicateTraceKey)
    ensures SortCompact(n, ClashingTraces(n, ts), ConflictTraceKey) == SortCompact(n, ClashingTraces(n, us), ConflictTraceKey)
  {
    IdentityPermutes(n, ts, us);
    LogicalPermutes(n, ts, us);
    hide RepeatedTraces, ClashingTraces, SortCompact;
    SortCompactPermutes(n, RepeatedTraces(n, ts), RepeatedTraces(n, us), DuplicateTraceKey);
    SortCompactPermutes(n, ClashingTraces(n, ts), ClashingTraces(n, us), ConflictTraceKey);
  }

  lemma SetDigestsPermute(n: Names, ts: seq<Trace>, us: seq<Trace>, rs: seq<Receipt>, qs: seq<Receipt>)
    requires multiset(ts) == multiset(us) && multiset(rs) == multiset(qs)
    ensures SortStrings(Map(DigestKey(n), ts)) == SortStrings(Map(DigestKey(n), us))
    ensures SortStrings(Map(SourceBy(n), rs)) == SortStrings(Map(SourceBy(n), qs))
  {
    hide SortStrings;
    MapPermutes(DigestKey(n), ts, us);
    SortStringsPermutes(Map(DigestKey(n), ts), Map(DigestKey(n), us));
    MapPermutes(SourceBy(n), rs, qs);
    SortStringsPermutes(Map(SourceBy(n), rs), Map(SourceBy(n), qs));
  }

  /** What the dataset takes from the receipts and the placed evidence. */
  lemma EvidencePermutes(n: Names, p: Protocol, records: seq<Trace>, rs: seq<Receipt>, qs: seq<Receipt>)
    requires CollisionFree(n) && (forall r :: r in rs ==> Genuine(n, r)) && multiset(rs) == multiset(qs)
    ensures var a, b := Admit(n, p, rs), Admit(n, p, qs);
            var s, t := PlacedFor(n, records, a), PlacedFor(n, records, b);
            && Similar(s, t) && PlacementSound(n, s) && Contexts(a) == Contexts(b)
            && SortStrings(Distinct(a.assessmentContexts)) == SortStrings(Distinct(b.assessmentContexts))
            && SortCompact(n, RepeatedEvidence(Stable(a)), DuplicateKey) == SortCompact(n, RepeatedEvidence(Stable(b)), DuplicateKey)
  {
    var a, b := Admit(n, p, rs), Admit(n, p, qs);
    AdmitPermutes(n, p, rs, qs);
    AdmitSound(n, p, rs);
    StableDetermined(n, p, rs);
    hide Admit, CollisionFree, Genuine;
    DriftPermutes(a, b);
    DriftSound(n, a);
    DistinctPermutes(a.assessmentContexts, b.assessmentContexts);
    hide SortStrings, SortCompact, Stable, InvalidAfterDrift, RejectedAfterDrift, PlacedFor, Contexts, DistinctEvidence, RepeatedEvidence;
    PlacedPermutes(n, records, a, b);
    DistinctEvidencePermutes(Stable(a), Stable(b));
    RepeatedSound(n, Stable(a));
    DuplicatesSort(n, RepeatedEvidence(Stable(a)), RepeatedEvidence(Stable(b)));
  }

  lemma PlacedSorts(n: Names, p: Protocol, records: seq<Trace>, s: Placement, t: Placement)
    requires CollisionFree(n) && Similar(s, t) && PlacementSound(n, s)
    ensures Executions(n, p, s, records) == Executions(n, p, t, records)
    ensures s.missing + Gather(records, MissingFrom(n, s)) == t.missing + Gather(records, MissingFrom(n, t))
    ensures SortCompact(n, s.invalid, DiagnosticKey) == SortCompact(n, t.invalid, DiagnosticKey)
    ensures SortCompact(n, s.conflicting, ConflictKey) == SortCompact(n, t.conflicting, ConflictKey)
  {
    hide CollisionFree, SortCompact, Executions;
    ExecutionsSimilar(n, p, s, t, records);
    DiagnosticsSort(n, s.invalid, t.invalid);
    ConflictsSort(n, s.conflicting, t.conflicting);
  }

  lemma DatasetPermutes(n: Names, p: Protocol, ts: seq<Trace>, us: seq<Trace>, rs: seq<Receipt>, qs: seq<Receipt>)
    requires CollisionFree(n) && forall r :: r in rs ==> Genuine(n, r)
    requires multiset(ts) == multiset(us) && multiset(rs) == multiset(qs)
    ensures DatasetOf(n, p, ts, rs) == DatasetOf(n, p, us, qs)
  {
    hide Admit, CollisionFree, Genuine, TraceRecords, RepeatedTraces, ClashingTraces, SortStrings, SortCompact, Stable;
    hide PlacedFor, Executions, Contexts, LogicalUnits, CaseUnits, PairKeys, RepeatedEvidence, Gather, Mass, PlacementSound;
    RecordsPermute(n, ts, us);
    TraceListsSort(n, ts, us);
    SetDigestsPermute(n, ts, us, rs, qs);
    SameSize(ts, us);
    SameSize(rs, qs);
    var records := TraceRecords(n, ts);
    EvidencePermutes(n, p, records, rs, qs);
    PlacedSorts(n, p, records, PlacedFor(n, records, Admit(n, p, rs)), PlacedFor(n, records, Admit(n, p, qs)));
  }

  /** Permuting the trace rows and the receipts changes nothing: same error, or the same dataset in every field. */
  lemma JoinIgnoresOrder(n: Names, p: Protocol, ts: seq<Trace>, us: seq<Trace>, rs: seq<Receipt>, qs: seq<Receipt>)
    requires CollisionFree(n) && forall r :: r in rs ==> Genuine(n, r)
    requires multiset(ts) == multiset(us) && multiset(rs) == multiset(qs)
    ensures Join(n, p, ts, rs) == Join(n, p, us, qs)
  {
    hide DatasetOf, TraceRecords, MetadataOk, TraceAdmissible, CollisionFree, Genuine;
    SameMembers(ts, us);
    RecordsPermute(n, ts, us);
    DatasetPermutes(n, p, ts, us, rs, qs);
  }
}
