/** Where every receipt ends: exactly one fate each, and the lists of the dataset are these fates. */
module EvidenceFates {
  import opened CodeUnits
  import opened Wrappers
  import opened Sorting
  import opened Grouping
  import opened EvidenceModel
  import opened EvidenceJoin
  import opened EvidenceAdmission
  import opened EvidencePlacement
  import opened EvidenceOrder
  import opened EvidenceResult

  // ----- fates

  /** Refused or early, a later copy, in a clash over its join key or its lineage, without a trace, or a trace's sole evidence. */
  datatype Fate =
    | Refused | Copied | Clashed | Orphaned
    | Mismatched(trace: Trace) | TooEarly(trace: Trace) | Scores(trace: Trace) | Declares(trace: Trace)

  /** The first counted receipt with its evidence digest. */
  ghost predicate FirstCopy(p: Protocol, rs: seq<Receipt>, i: nat)
    requires i < |rs|
  {
    && Counted(p, rs, rs[i])
    && forall j :: 0 <= j < i && Counted(p, rs, rs[j]) ==> rs[j].evidenceDigest != rs[i].evidenceDigest
  }

  /** Another counted receipt has the same join key and different evidence. */
  ghost predicate Clashes(n: Names, p: Protocol, rs: seq<Receipt>, r: Receipt)
    requires r.Authentic?
  {
    exists q :: Counted(p, rs, q) && EvidenceKey(n, q.evidence) == EvidenceKey(n, r.evidence) && q.evidence != r.evidence
  }

  /** A first copy that does not clash. */
  ghost predicate Alone(n: Names, p: Protocol, rs: seq<Receipt>, i: nat)
    requires i < |rs|
  {
    FirstCopy(p, rs, i) && !Clashes(n, p, rs, rs[i])
  }

  /** The receipt's join key is the trace's. */
  predicate Concerns(n: Names, r: Receipt, t: Trace)
    requires r.Authentic?
  {
    EvidenceKey(n, r.evidence) == TraceKey(n, t)
  }

  /** The fates, each by its own condition; ts are the retained traces. */
  ghost predicate Ends(n: Names, p: Protocol, ts: seq<Trace>, rs: seq<Receipt>, i: nat, f: Fate)
    requires i < |rs|
  {
    var r := rs[i];
    match f
    case Refused => !Counted(p, rs, r)
    case Copied => Counted(p, rs, r) && !FirstCopy(p, rs, i)
    case Clashed => FirstCopy(p, rs, i) && Clashes(n, p, rs, r)
    case Orphaned => Alone(n, p, rs, i) && forall t :: t in ts ==> !Concerns(n, r, t)
    case Mismatched(t) => Alone(n, p, rs, i) && t in ts && Concerns(n, r, t) && !LineageMatches(t, r.evidence)
    case TooEarly(t) =>
      && Alone(n, p, rs, i) && t in ts && Concerns(n, r, t)
      && LineageMatches(t, r.evidence) && r.evidence.producedAt < t.completedAt
    case Scores(t) => FirstCopy(p, rs, i) && t in ts && SoleReceipt(n, p, rs, t, r) && r.evidence.outcome.Scored?
    case Declares(t) => FirstCopy(p, rs, i) && t in ts && SoleReceipt(n, p, rs, t, r) && r.evidence.outcome.NotScored?
  }

  lemma SoleMeans(n: Names, p: Protocol, rs: seq<Receipt>, r: Receipt, t: Trace)
    requires Counted(p, rs, r) && r.Authentic?
    ensures SoleReceipt(n, p, rs, t, r) <==>
            Concerns(n, r, t) && !Clashes(n, p, rs, r) && LineageMatches(t, r.evidence) && r.evidence.producedAt >= t.completedAt
  {
    hide Counted, LineageMatches, TraceKey, EvidenceKey;
  }

  lemma FirstFate(n: Names, p: Protocol, ts: seq<Trace>, rs: seq<Receipt>, i: nat) returns (f: Fate)
    requires KeysApart(n, ts) && i < |rs| && FirstCopy(p, rs, i) && rs[i].Authentic?
    ensures Ends(n, p, ts, rs, i, f)
    ensures forall g :: Ends(n, p, ts, rs, i, g) ==> g == f
  {
    var r := rs[i];
    assert Counted(p, rs, r);
    forall t ensures SoleReceipt(n, p, rs, t, r) <==>
        Concerns(n, r, t) && !Clashes(n, p, rs, r) && LineageMatches(t, r.evidence) && r.evidence.producedAt >= t.completedAt {
      SoleMeans(n, p, rs, r, t);
    }
    hide Counted, LineageMatches, TraceKey, EvidenceKey, Clashes, SoleReceipt, FirstCopy;
    f := Clashed;
    if !Clashes(n, p, rs, r) {
      f := Orphaned;
      if t :| t in ts && Concerns(n, r, t) {
        f := if !LineageMatches(t, r.evidence) then Mismatched(t) else if r.evidence.producedAt < t.completedAt then TooEarly(t)
             else if r.evidence.outcome.Scored? then Scores(t) else Declares(t);
      }
    }
  }

  /** Every receipt has exactly one fate. */
  lemma OneFate(n: Names, p: Protocol, ts: seq<Trace>, rs: seq<Receipt>, i: nat) returns (f: Fate)
    requires KeysApart(n, ts) && i < |rs|
    ensures Ends(n, p, ts, rs, i, f)
    ensures forall g :: Ends(n, p, ts, rs, i, g) ==> g == f
  {
    var r := rs[i];
    hide Counted, LineageMatches, TraceKey, EvidenceKey, Clashes, SoleReceipt;
    if !Counted(p, rs, r) {
      f := Refused;
    } else if !FirstCopy(p, rs, i) {
      f := Copied;
    } else {
      CountedIsAuthentic(p, rs, r);
      f := FirstFate(n, p, ts, rs, i);
    }
  }

  lemma CountedIsAuthentic(p: Protocol, rs: seq<Receipt>, r: Receipt)
    requires Counted(p, rs, r)
    ensures r.Authentic? && r in rs
  {
  }

  // ----- what the evidence loop lists

  /** The trace a record belongs to, if it is of the record's lineage. */
  function Home(n: Names, ts: seq<Trace>, z: Record): Option<Trace> {
    var index := TraceIndex(n, ts);
    if z.joinKey in index && LineageMatches(index[z.joinKey], z.row.evidence) then Some(index[z.joinKey]) else None
  }

  function OrphanedBy(n: Names, ts: seq<Trace>): Record -> seq<Diagnostic> {
    (z: Record) => if z.joinKey in TraceIndex(n, ts) then [] else [RowDiagnostic(z.row, OrphanReason(n, ts, z.row.evidence))]
  }

  function MismatchedBy(n: Names, ts: seq<Trace>): Record -> seq<Conflict> {
    (z: Record) => if z.joinKey in TraceIndex(n, ts) && Home(n, ts, z).None? then [LineageConflict(z)] else []
  }

  function OnTime(t: Trace, z: Record): bool { z.row.evidence.producedAt >= t.completedAt }

  predicate Declaring(kind: Declared, z: Record) { z.row.evidence.outcome.NotScored? && z.row.evidence.outcome.kind == kind }

  function InvalidBy(n: Names, ts: seq<Trace>): Record -> seq<Diagnostic> {
    (z: Record) =>
      var home := Home(n, ts, z);
      if home.None? then []
      else if !OnTime(home.value, z) then [RowDiagnostic(z.row, PredatesCompletion)]
      else if Declaring(DeclaredInvalid, z) then [RowDiagnostic(z.row, DeclaredReason(z.row.evidence.outcome.reasonCode))]
      else []
  }

  function AbstainedBy(n: Names, ts: seq<Trace>): Record -> seq<Abstention> {
    (z: Record) =>
      var home := Home(n, ts, z);
      if home.Some? && OnTime(home.value, z) && Declaring(DeclaredAbstained, z)
      then [Abstention(ExecutionKey(n, home.value), z.row.digest, z.row.evidence.outcome.reasonCode)] else []
  }

  function MissingOfTrace(n: Names, t: Trace, z: Record): Missing
    requires z.row.evidence.outcome.NotScored?
  {
    Missing(ExecutionKey(n, t), t.traceId, t.profileId, Some(z.row.evidence.outcome.reasonCode), Some(z.row.digest))
  }

  function MissingBy(n: Names, ts: seq<Trace>): Record -> seq<Missing> {
    (z: Record) =>
      var home := Home(n, ts, z);
      if home.Some? && OnTime(home.value, z) && Declaring(DeclaredMissing, z) then [MissingOfTrace(n, home.value, z)] else []
  }

  /** The lists of a placement are what they were, and what the records add. */
  ghost predicate Listing(n: Names, ts: seq<Trace>, s: Placement, zs: seq<Record>, r: Placement) {
    && r.orphan == s.orphan + Gather(zs, OrphanedBy(n, ts))
    && r.conflicting == s.conflicting + Gather(zs, MismatchedBy(n, ts))
    && r.invalid == s.invalid + Gather(zs, InvalidBy(n, ts))
    && r.abstained == s.abstained + Gather(zs, AbstainedBy(n, ts))
    && r.missing == s.missing + Gather(zs, MissingBy(n, ts))
  }

  lemma PlaceOnLists(n: Names, ts: seq<Trace>, s: Placement, z: Record)
    requires Home(n, ts, z).Some?
    ensures var r := PlaceOn(n, Home(n, ts, z).value, s, z);
            && r.orphan == s.orphan && r.conflicting == s.conflicting && r.invalid == s.invalid + InvalidBy(n, ts)(z)
            && r.abstained == s.abstained + AbstainedBy(n, ts)(z) && r.missing == s.missing + MissingBy(n, ts)(z)
  {
    hide Home, ExecutionKey, RowDiagnostic;
  }

  /** One record's additions. */
  ghost predicate Adds(n: Names, ts: seq<Trace>, s: Placement, z: Record, r: Placement) {
    && r.orphan == s.orphan + OrphanedBy(n, ts)(z) && r.conflicting == s.conflicting + MismatchedBy(n, ts)(z)
    && r.invalid == s.invalid + InvalidBy(n, ts)(z)
    && r.abstained == s.abstained + AbstainedBy(n, ts)(z) && r.missing == s.missing + MissingBy(n, ts)(z)
  }

  lemma PlaceAdds(n: Names, ts: seq<Trace>, s: Placement, z: Record)
    ensures Adds(n, ts, s, z, Place(n, ts, s, z))
  {
    hide TraceIndex, LineageMatches, OrphanReason, RowDiagnostic, LineageConflict, ExecutionKey, PlaceOn;
    if Home(n, ts, z).Some? { PlaceOnLists(n, ts, s, z); }
  }

  lemma GatherSnoc<A, B>(s: seq<B>, xs: seq<A>, x: A, f: A -> seq<B>)
    ensures s + Gather(xs + [x], f) == s + Gather(xs, f) + f(x)
  {
    assert (xs + [x])[..|xs|] == xs;
  }

  lemma ListingGrows(n: Names, ts: seq<Trace>, s: Placement, front: seq<Record>, m: Placement, z: Record, r: Placement)
    requires Listing(n, ts, s, front, m) && Adds(n, ts, m, z, r)
    ensures Listing(n, ts, s, front + [z], r)
  {
    hide OrphanedBy, MismatchedBy, InvalidBy, AbstainedBy, MissingBy, Gather;
    GatherSnoc(s.orphan, front, z, OrphanedBy(n, ts));
    GatherSnoc(s.conflicting, front, z, MismatchedBy(n, ts));
    GatherSnoc(s.invalid, front, z, InvalidBy(n, ts));
    GatherSnoc(s.abstained, front, z, AbstainedBy(n, ts));
    GatherSnoc(s.missing, front, z, MissingBy(n, ts));
  }

  lemma {:induction false} PlaceAllLists(n: Names, ts: seq<Trace>, s: Placement, zs: seq<Record>)
    ensures Listing(n, ts, s, zs, PlaceAll(n, ts, s, zs))
  {
    if zs != [] {
      var k := |zs| - 1;
      hide Place, Listing, Adds;
      PlaceAllStep(n, ts, s, zs);
      PlaceAllLists(n, ts, s, zs[..k]);
      PlaceAdds(n, ts, PlaceAll(n, ts, s, zs[..k]), zs[k]);
      ListingGrows(n, ts, s, zs[..k], PlaceAll(n, ts, s, zs[..k]), zs[k], PlaceAll(n, ts, s, zs));
    }
  }

  // ----- records of receipts

  /** Among the counted receipts' records, one has its join key to itself iff its receipt does not clash. */
  lemma SoleIff(n: Names, p: Protocol, rs: seq<Receipt>, r: Receipt)
    requires CollisionFree(n) && (forall q :: q in rs ==> Genuine(n, q)) && Counted(p, rs, r) && r.Authentic?
    ensures SoleFor(Stable(Admit(n, p, rs)), RecordOf(n, r)) <==> !Clashes(n, p, rs, r)
  {
    var stable, x := Stable(Admit(n, p, rs)), RecordOf(n, r);
    StableCounted(n, p, rs);
    hide Stable, Admit, CollisionFree, Genuine, Rejection, OneVerificationContext, EvidenceKey;
    RecordParts(n, p, rs, r);
    if !Clashes(n, p, rs, r) {
      forall y | y in stable && y.joinKey == x.joinKey ensures y == x {
        var q :| Counted(p, rs, q) && y == RecordOf(n, q);
        RecordParts(n, p, rs, q);
        SameEvidenceSameRecord(n, p, rs, r, q);
      }
    } else {
      var q :| Counted(p, rs, q) && EvidenceKey(n, q.evidence) == EvidenceKey(n, r.evidence) && q.evidence != r.evidence;
      RecordParts(n, p, rs, q);
      assert RecordOf(n, q) in stable;
    }
  }

  /** The evidence loop visits exactly the records of the receipts that do not clash. */
  lemma Visited(n: Names, p: Protocol, rs: seq<Receipt>, x: Record)
    requires CollisionFree(n) && (forall q :: q in rs ==> Genuine(n, q))
    ensures x in PlacementOrder(Stable(Admit(n, p, rs))) <==>
            exists r :: Counted(p, rs, r) && r.Authentic? && !Clashes(n, p, rs, r) && x == RecordOf(n, r)
  {
    var stable := Stable(Admit(n, p, rs));
    StableDetermined(n, p, rs);
    PlacedRecords(stable);
    StableMembers(n, p, rs, x);
    hide Stable, Admit, CollisionFree, Genuine, PlacementOrder, Clashes, OneVerificationContext, Rejection, DigestDetermines;
    forall r | Counted(p, rs, r) && r.Authentic? ensures SoleFor(stable, RecordOf(n, r)) <==> !Clashes(n, p, rs, r) { SoleIff(n, p, rs, r); }
    if x in PlacementOrder(stable) {
      var r :| Counted(p, rs, r) && x == RecordOf(n, r);
      assert r.Authentic? by { CountedIsAuthentic(p, rs, r); }
    }
  }

  /** Counted receipts with one evidence digest have one record. */
  lemma SameDigestSameRecord(n: Names, p: Protocol, rs: seq<Receipt>, r: Receipt, q: Receipt)
    requires CollisionFree(n) && (forall x :: x in rs ==> Genuine(n, x)) && Counted(p, rs, r) && Counted(p, rs, q)
    requires r.Authentic? && q.Authentic? && r.evidenceDigest == q.evidenceDigest
    ensures r.evidence == q.evidence && RecordOf(n, r) == RecordOf(n, q)
  {
    assert n.digest(EvidenceBody(r.evidence)) == n.digest(EvidenceBody(q.evidence));
    SameEvidenceSameRecord(n, p, rs, r, q);
  }

  lemma FirstBefore(p: Protocol, rs: seq<Receipt>, k: nat) returns (i: nat)
    requires k < |rs| && Counted(p, rs, rs[k])
    ensures i <= k && FirstCopy(p, rs, i) && rs[i].evidenceDigest == rs[k].evidenceDigest
  {
    hide Rejection, OneVerificationContext;
    i := k;
    if !FirstCopy(p, rs, k) {
      var j :| 0 <= j < k && Counted(p, rs, rs[j]) && rs[j].evidenceDigest == rs[k].evidenceDigest;
      i := FirstBefore(p, rs, j);
    }
  }

  /** The position a counted receipt's record is accounted at. */
  lemma FirstOf(n: Names, p: Protocol, rs: seq<Receipt>, r: Receipt) returns (i: nat)
    requires CollisionFree(n) && (forall x :: x in rs ==> Genuine(n, x)) && Counted(p, rs, r)
    ensures i < |rs| && FirstCopy(p, rs, i) && rs[i].Authentic? && r.Authentic?
    ensures rs[i].evidence == r.evidence && RecordOf(n, rs[i]) == RecordOf(n, r)
  {
    CountedIsAuthentic(p, rs, r);
    var k :| 0 <= k < |rs| && rs[k] == r;
    i := FirstBefore(p, rs, k);
    hide Counted, CollisionFree, Genuine;
    assert Counted(p, rs, rs[i]);
    CountedIsAuthentic(p, rs, rs[i]);
    SameDigestSameRecord(n, p, rs, rs[i], r);
  }

  /** A trace the receipt names is the one its record is placed on. */
  lemma HomeIs(n: Names, ts: seq<Trace>, r: Receipt, t: Trace)
    requires KeysApart(n, ts) && r.Authentic? && t in ts && Concerns(n, r, t)
    ensures RecordOf(n, r).joinKey in TraceIndex(n, ts)
    ensures Home(n, ts, RecordOf(n, r)) == if LineageMatches(t, r.evidence) then Some(t) else None
  {
    IndexFinds(n, ts);
    hide TraceIndex, LineageMatches, TraceKey, EvidenceKey;
  }

  lemma HomeNames(n: Names, ts: seq<Trace>, r: Receipt) returns (t: Trace)
    requires KeysApart(n, ts) && r.Authentic? && RecordOf(n, r).joinKey in TraceIndex(n, ts)
    ensures t in ts && Concerns(n, r, t)
  {
    IndexFinds(n, ts);
    t := TraceIndex(n, ts)[RecordOf(n, r).joinKey];
  }

  // ----- the lists of a placement

  /** How a receipt that is not counted is reported. */
  function RefusalDiagnostic(p: Protocol, r: Receipt): Diagnostic {
    if r.Inauthentic? then Diagnostic(None, None, NoProvenance, InauthenticReceipt)
    else RowDiagnostic(RowOf(r), if Rejection(p, r).Some? then Rejection(p, r).value else ContextDrift)
  }

  /** Counted: admitted, and all authentic receipts share one context. */
  lemma RefusedListed(n: Names, p: Protocol, rs: seq<Receipt>, d: Diagnostic)
    requires CollisionFree(n)
    ensures d in InvalidAfterDrift(Admit(n, p, rs)) <==> exists r :: r in rs && !Counted(p, rs, r) && d == RefusalDiagnostic(p, r)
  {
    var a := Admit(n, p, rs);
    DriftIff(n, p, rs);
    GatherMembers(rs, InvalidFrom(p));
    GatherMembers(a.admitted, DriftDiagnostic);
    hide Drifts, OneVerificationContext, RowDiagnostic, CollisionFree, Rejection, EvidenceKey, Gather, RowOf;
    if d in a.invalid {
      var r :| r in rs && d in InvalidFrom(p)(r);
      assert !Counted(p, rs, r) && d == RefusalDiagnostic(p, r);
    } else if d in InvalidAfterDrift(a) {
      var x :| x in a.admitted && d in DriftDiagnostic(x);
      AdmittedFromReceipt(n, p, rs, x);
      var r :| r in rs && Admitted(p, r) && x == RecordOf(n, r);
      assert !Counted(p, rs, r) && d == RefusalDiagnostic(p, r);
    }
    if r :| r in rs && !Counted(p, rs, r) && d == RefusalDiagnostic(p, r) { RefusalIsListed(n, p, rs, r); }
  }

  lemma RefusalIsListed(n: Names, p: Protocol, rs: seq<Receipt>, r: Receipt)
    requires CollisionFree(n) && r in rs && !Counted(p, rs, r)
    ensures RefusalDiagnostic(p, r) in InvalidAfterDrift(Admit(n, p, rs))
  {
    var a := Admit(n, p, rs);
    hide Drifts, OneVerificationContext, RowDiagnostic, CollisionFree, Rejection, EvidenceKey, RowOf, Gather;
    if Admitted(p, r) {
      DriftIff(n, p, rs);
      AdmittedFromReceipt(n, p, rs, RecordOf(n, r));
      GatherMembers(a.admitted, DriftDiagnostic);
      assert RefusalDiagnostic(p, r) in DriftDiagnostic(RecordOf(n, r));
    } else {
      GatherMembers(rs, InvalidFrom(p));
      assert RefusalDiagnostic(p, r) in InvalidFrom(p)(r);
    }
  }

  lemma TwoIn<T>(g: seq<T>, x: T, y: T)
    requires x in g && y in g && x != y
    ensures |g| > 1
  {
  }

  /** Two records of one join key are reported as a conflict that shows both. */
  lemma ClashListed(xs: seq<Record>, x: Record, y: Record)
    requires x in xs && y in xs && x != y && x.joinKey == y.joinKey
    ensures exists c :: c in ClashingEvidence(xs) && c.multiple && c.joinKey == x.joinKey && x.row in c.rows
  {
    var k, g := x.joinKey, Group(xs, RecordKey, x.joinKey);
    GroupMembers(xs, RecordKey, k);
    GatherMembers(Keys(xs, RecordKey), ClashByKey(xs));
    TwoIn(g, x, y);
    hide SortStrings, Sort, Group, Keys, Gather;
    RowSorted(g, x.row);
    assert x.row in Map(RowOfRecord, g) by {
      var i :| 0 <= i < |g| && g[i] == x;
      assert Map(RowOfRecord, g)[i] == RowOfRecord(g[i]);
    }
    var c := ClashByKey(xs)(k)[0];
    assert c in ClashingEvidence(xs);
  }

  lemma RowSorted(g: seq<Record>, row: Row)
    ensures row in SortRows(Map(RowOfRecord, g)) <==> row in Map(RowOfRecord, g)
  {
    SortPermutes(Map(RowOfRecord, g), ByKey(DigestOf));
    SameMembers(SortRows(Map(RowOfRecord, g)), Map(RowOfRecord, g));
  }

  lemma RowOfMember(g: seq<Record>, row: Row) returns (x: Record, y: Record)
    requires NoDuplicates(g) && |g| > 1 && row in Map(RowOfRecord, g)
    ensures x in g && y in g && x != y && x.row == row
  {
    var i :| 0 <= i < |g| && Map(RowOfRecord, g)[i] == row;
    assert Map(RowOfRecord, g)[i] == RowOfRecord(g[i]);
    var j := if i == 0 then 1 else 0;
    x, y := g[i], g[j];
    assert i < j || j < i;
  }

  /** And every row a conflict shows is that of a record with another of the same join key. */
  lemma ClashFrom(xs: seq<Record>, c: Conflict, row: Row) returns (x: Record, y: Record)
    requires NoDuplicates(xs) && c in ClashingEvidence(xs) && row in c.rows
    ensures c.multiple && x in xs && y in xs && x != y && x.joinKey == y.joinKey && x.row == row
  {
    hide SortStrings, SortRows, Group, Keys, Gather, NoDuplicates;
    GatherMembers(Keys(xs, RecordKey), ClashByKey(xs));
    var k :| k in Keys(xs, RecordKey) && c in ClashByKey(xs)(k);
    var g := Group(xs, RecordKey, k);
    GroupMembers(xs, RecordKey, k);
    GroupNoDuplicates(xs, RecordKey, k);
    RowSorted(g, row);
    x, y := RowOfMember(g, row);
  }

  // ----- copies

  /** How often an admitted receipt carries the evidence digest. */
  function CopyCount(p: Protocol, rs: seq<Receipt>, digest: Text): nat {
    if rs == [] then 0
    else
      var last := rs[|rs| - 1];
      CopyCount(p, rs[..|rs| - 1], digest) + if Admitted(p, last) && last.evidenceDigest == digest then 1 else 0
  }

  lemma DigestOfRecord(n: Names, r: Receipt)
    requires r.Authentic?
    ensures RecordDigest(RecordOf(n, r)) == r.evidenceDigest
  {
  }

  lemma {:induction false} CopiesGrouped(n: Names, p: Protocol, rs: seq<Receipt>, digest: Text)
    ensures |Group(Gather(rs, AdmittedFrom(n, p)), RecordDigest, digest)| == CopyCount(p, rs, digest)
  {
    if rs != [] {
      var k := |rs| - 1;
      CopiesGrouped(n, p, rs[..k], digest);
      hide Rejection, EvidenceKey, RowOf;
      var front := Gather(rs[..k], AdmittedFrom(n, p));
      if Admitted(p, rs[k]) {
        DigestOfRecord(n, rs[k]);
        GroupStep(front, RecordOf(n, rs[k]), RecordDigest, digest);
      } else {
        assert Gather(rs, AdmittedFrom(n, p)) == front;
      }
    }
  }

  lemma {:induction false} CopyAt(p: Protocol, rs: seq<Receipt>, i: nat)
    requires i < |rs| && Admitted(p, rs[i])
    ensures CopyCount(p, rs, rs[i].evidenceDigest) >= 1 + CopyCount(p, rs[..i], rs[i].evidenceDigest)
    decreases |rs|
  {
    hide Rejection;
    var k := |rs| - 1;
    if i < k {
      CopyAt(p, rs[..k], i);
      assert rs[..k][..i] == rs[..i];
    }
  }

  /** Two positions with one digest are two copies. */
  lemma TwoCopies(p: Protocol, rs: seq<Receipt>, j: nat, i: nat)
    requires j < i < |rs| && Admitted(p, rs[i]) && Admitted(p, rs[j]) && rs[j].evidenceDigest == rs[i].evidenceDigest
    ensures CopyCount(p, rs, rs[i].evidenceDigest) >= 2
  {
    hide Rejection, CopyCount;
    CopyAt(p, rs, i);
    CopyAt(p, rs[..i], j);
  }

  /** A digest is reported as repeated iff several counted receipts carry it, with their number. */
  lemma RepeatedListed(n: Names, p: Protocol, rs: seq<Receipt>, digest: Text)
    requires CollisionFree(n) && OneVerificationContext(rs) && CopyCount(p, rs, digest) >= 2
    ensures exists d :: d in RepeatedEvidence(Stable(Admit(n, p, rs))) && d.digest == digest && d.occurrences == CopyCount(p, rs, digest)
  {
    DriftIff(n, p, rs);
    var xs := Admit(n, p, rs).admitted;
    CopiesGrouped(n, p, rs, digest);
    GroupMembers(xs, RecordDigest, digest);
    GatherMembers(Keys(xs, RecordDigest), RepeatedByDigest(xs));
    hide Gather, Group, Keys, Drifts, CopyCount;
    var d := RepeatedByDigest(xs)(digest)[0];
    assert d in RepeatedEvidence(xs);
  }

  // ----- scored and declared keys

  predicate KeyedBy(n: Names, ts: seq<Trace>, m: map<Text, Record>) { forall k :: k in m ==> exists t :: t in ts && k == ExecutionKey(n, t) }

  /** Placing evidence adds at most its trace's key. */
  lemma PlaceOnKeys(n: Names, t: Trace, s: Placement, z: Record)
    ensures PlaceOn(n, t, s, z).scored == s.scored || PlaceOn(n, t, s, z).scored == s.scored[ExecutionKey(n, t) := z]
    ensures PlaceOn(n, t, s, z).declared == s.declared || PlaceOn(n, t, s, z).declared == s.declared[ExecutionKey(n, t) := z]
  {
    hide ExecutionKey, RowDiagnostic;
  }

  lemma PlaceKeys(n: Names, ts: seq<Trace>, s: Placement, z: Record)
    requires KeysApart(n, ts) && KeyedBy(n, ts, s.scored) && KeyedBy(n, ts, s.declared)
    ensures KeyedBy(n, ts, Place(n, ts, s, z).scored) && KeyedBy(n, ts, Place(n, ts, s, z).declared)
  {
    IndexFinds(n, ts);
    hide TraceIndex, LineageMatches, OrphanReason, RowDiagnostic, LineageConflict, ExecutionKey, KeysApart, PlaceOn;
    if z.joinKey in TraceIndex(n, ts) { PlaceOnKeys(n, TraceIndex(n, ts)[z.joinKey], s, z); }
  }

  lemma {:induction false} PlacedKeys(n: Names, ts: seq<Trace>, s: Placement, zs: seq<Record>)
    requires KeysApart(n, ts) && KeyedBy(n, ts, s.scored) && KeyedBy(n, ts, s.declared)
    ensures KeyedBy(n, ts, PlaceAll(n, ts, s, zs).scored) && KeyedBy(n, ts, PlaceAll(n, ts, s, zs).declared)
  {
    if zs != [] {
      var k := |zs| - 1;
      hide KeyedBy, KeysApart, Place;
      PlaceAllStep(n, ts, s, zs);
      PlacedKeys(n, ts, s, zs[..k]);
      PlaceKeys(n, ts, PlaceAll(n, ts, s, zs[..k]), zs[k]);
    }
  }

  // ----- fates and lists

  /** The lists of the join's placement. */
  ghost predicate PlacementLists(n: Names, ts: seq<Trace>, a: Admission, s: Placement) {
    var zs := PlacementOrder(Stable(a));
    && s.orphan == Gather(zs, OrphanedBy(n, ts))
    && s.conflicting == ClashingEvidence(DistinctEvidence(Stable(a))) + Gather(zs, MismatchedBy(n, ts))
    && s.invalid == InvalidAfterDrift(a) + Gather(zs, InvalidBy(n, ts))
    && s.abstained == Gather(zs, AbstainedBy(n, ts))
    && s.missing == Gather(zs, MissingBy(n, ts))
  }

  lemma PlacedLists(n: Names, ts: seq<Trace>, a: Admission)
    ensures PlacementLists(n, ts, a, PlacedFor(n, ts, a))
  {
    hide Stable, InvalidAfterDrift, RejectedAfterDrift, ClashingEvidence, DistinctEvidence, SoleEvidence, Sort, SortCompact, FirstRejections, Gather, PlaceAll;
    var s := Start(n, ts, InvalidAfterDrift(a), RejectedAfterDrift(a), ClashingEvidence(DistinctEvidence(Stable(a))));
    PlaceAllLists(n, ts, s, PlacementOrder(Stable(a)));
  }

  /** What the dataset's lists, or its evidence maps, say of the receipt at a position. */
  ghost predicate Listed(n: Names, p: Protocol, ts: seq<Trace>, rs: seq<Receipt>, i: nat, f: Fate)
    requires i < |rs|
  {
    var r, a := rs[i], Admit(n, p, rs);
    var s := PlacedFor(n, ts, a);
    if f.Refused? then RefusalDiagnostic(p, r) in s.invalid
    else
      && r.Authentic?
      && match f
         case Copied =>
           exists d :: d in RepeatedEvidence(Stable(a)) && d.digest == r.evidenceDigest && d.occurrences == CopyCount(p, rs, r.evidenceDigest)
         case Clashed => exists c :: c in s.conflicting && c.multiple && c.joinKey == EvidenceKey(n, r.evidence) && RowOf(r) in c.rows
         case Orphaned => RowDiagnostic(RowOf(r), OrphanReason(n, ts, r.evidence)) in s.orphan
         case Mismatched(_) => LineageConflict(RecordOf(n, r)) in s.conflicting
         case TooEarly(_) => RowDiagnostic(RowOf(r), PredatesCompletion) in s.invalid
         case Scores(t) => At(s.scored, ExecutionKey(n, t)) == Some(RecordOf(n, r))
         case Declares(t) => At(s.declared, ExecutionKey(n, t)) == Some(RecordOf(n, r)) && Declaration(n, s, t, r)
         case Refused => true
  }

  /** A declared non-score is listed by its kind. */
  ghost predicate Declaration(n: Names, s: Placement, t: Trace, r: Receipt)
    requires r.Authentic?
  {
    && r.evidence.outcome.NotScored?
    && var code := r.evidence.outcome.reasonCode;
       match r.evidence.outcome.kind
       case DeclaredAbstained => Abstention(ExecutionKey(n, t), r.evidenceDigest, code) in s.abstained
       case DeclaredMissing => Missing(ExecutionKey(n, t), t.traceId, t.profileId, Some(code), Some(r.evidenceDigest)) in s.missing
       case DeclaredInvalid => RowDiagnostic(RowOf(r), DeclaredReason(code)) in s.invalid
  }

  lemma RefusedEnds(n: Names, p: Protocol, ts: seq<Trace>, rs: seq<Receipt>, i: nat)
    requires CollisionFree(n) && i < |rs| && Ends(n, p, ts, rs, i, Refused)
    ensures Listed(n, p, ts, rs, i, Refused)
  {
    PlacedLists(n, ts, Admit(n, p, rs));
    hide CollisionFree, Admit, Counted, PlacedFor, InvalidAfterDrift, RefusalDiagnostic, Gather, PlacementOrder;
    RefusalIsListed(n, p, rs, rs[i]);
  }

  lemma CopiedEnds(n: Names, p: Protocol, ts: seq<Trace>, rs: seq<Receipt>, i: nat)
    requires CollisionFree(n) && i < |rs| && Ends(n, p, ts, rs, i, Copied)
    ensures Listed(n, p, ts, rs, i, Copied)
  {
    hide CollisionFree, Admit, Rejection, PlacedFor, OneVerificationContext, RepeatedEvidence, Stable, CopyCount;
    var j :| 0 <= j < i && Counted(p, rs, rs[j]) && rs[j].evidenceDigest == rs[i].evidenceDigest;
    TwoCopies(p, rs, j, i);
    RepeatedListed(n, p, rs, rs[i].evidenceDigest);
  }

  lemma ClashedEnds(n: Names, p: Protocol, ts: seq<Trace>, rs: seq<Receipt>, i: nat)
    requires CollisionFree(n) && (forall q :: q in rs ==> Genuine(n, q)) && i < |rs| && Ends(n, p, ts, rs, i, Clashed)
    ensures Listed(n, p, ts, rs, i, Clashed)
  {
    var r, a := rs[i], Admit(n, p, rs);
    CountedIsAuthentic(p, rs, r);
    PlacedLists(n, ts, a);
    StableDetermined(n, p, rs);
    DistinctEvidenceMembers(Stable(a));
    StableCounted(n, p, rs);
    hide CollisionFree, Genuine, Admit, Counted, PlacedFor, ClashingEvidence, DistinctEvidence, Stable, Gather, PlacementOrder, EvidenceKey, DigestDetermines;
    var q :| Counted(p, rs, q) && EvidenceKey(n, q.evidence) == EvidenceKey(n, r.evidence) && q.evidence != r.evidence;
    RecordParts(n, p, rs, r);
    RecordParts(n, p, rs, q);
    var xs, x, y := DistinctEvidence(Stable(a)), RecordOf(n, r), RecordOf(n, q);
    assert x in Stable(a) && y in Stable(a);
    ClashListed(xs, x, y);
  }

  lemma GatheredFrom<A(!new), B(!new)>(xs: seq<A>, x: A, f: A -> seq<B>, b: B)
    requires x in xs && b in f(x)
    ensures b in Gather(xs, f)
  {
    GatherMembers(xs, f);
  }

  lemma OrphanedEnds(n: Names, p: Protocol, ts: seq<Trace>, rs: seq<Receipt>, i: nat)
    requires CollisionFree(n) && (forall q :: q in rs ==> Genuine(n, q)) && KeysApart(n, ts) && i < |rs| && Ends(n, p, ts, rs, i, Orphaned)
    ensures Listed(n, p, ts, rs, i, Orphaned)
  {
    var r, a := rs[i], Admit(n, p, rs);
    CountedIsAuthentic(p, rs, r);
    PlacedLists(n, ts, a);
    var x := RecordOf(n, r);
    hide CollisionFree, Genuine, Admit, Counted, PlacedFor, Stable, Gather, PlacementOrder, Clashes, RowDiagnostic, OrphanReason, KeysApart, RowOf, EvidenceKey, TraceIndex;
    Visited(n, p, rs, x);
    if x.joinKey in TraceIndex(n, ts) { var t := HomeNames(n, ts, r); }
    GatheredFrom(PlacementOrder(Stable(a)), x, OrphanedBy(n, ts), RowDiagnostic(x.row, OrphanReason(n, ts, x.row.evidence)));
    RecordParts(n, p, rs, r);
  }

  lemma HomelessEnds(n: Names, p: Protocol, ts: seq<Trace>, rs: seq<Receipt>, i: nat, t: Trace)
    requires CollisionFree(n) && (forall q :: q in rs ==> Genuine(n, q)) && KeysApart(n, ts) && i < |rs|
    requires Ends(n, p, ts, rs, i, Mismatched(t))
    ensures Listed(n, p, ts, rs, i, Mismatched(t))
  {
    var r, a := rs[i], Admit(n, p, rs);
    CountedIsAuthentic(p, rs, r);
    PlacedLists(n, ts, a);
    var x := RecordOf(n, r);
    hide CollisionFree, Genuine, Admit, Counted, PlacedFor, Stable, Gather, PlacementOrder, Clashes, LineageConflict, KeysApart, Home, RecordOf, LineageMatches;
    Visited(n, p, rs, x);
    HomeIs(n, ts, r, t);
    GatheredFrom(PlacementOrder(Stable(a)), x, MismatchedBy(n, ts), LineageConflict(x));
  }

  /** The placement lists everything the record adds. */
  ghost predicate Includes(n: Names, ts: seq<Trace>, s: Placement, z: Record) {
    && (forall d :: d in InvalidBy(n, ts)(z) ==> d in s.invalid)
    && (forall d :: d in AbstainedBy(n, ts)(z) ==> d in s.abstained)
    && (forall d :: d in MissingBy(n, ts)(z) ==> d in s.missing)
  }

  /** What a visited record adds is listed. */
  lemma VisitedListed(n: Names, ts: seq<Trace>, a: Admission, z: Record)
    requires z in PlacementOrder(Stable(a))
    ensures Includes(n, ts, PlacedFor(n, ts, a), z)
  {
    PlacedLists(n, ts, a);
    var zs := PlacementOrder(Stable(a));
    hide PlacedFor, PlacementOrder, Stable, InvalidBy, AbstainedBy, MissingBy, Gather;
    GatherMembers(zs, InvalidBy(n, ts));
    GatherMembers(zs, AbstainedBy(n, ts));
    GatherMembers(zs, MissingBy(n, ts));
  }

  /** What a record of trace t adds, by time and kind. */
  lemma HomeAdds(n: Names, ts: seq<Trace>, z: Record, t: Trace)
    requires Home(n, ts, z) == Some(t)
    ensures !OnTime(t, z) ==> InvalidBy(n, ts)(z) == [RowDiagnostic(z.row, PredatesCompletion)]
    ensures OnTime(t, z) && z.row.evidence.outcome.NotScored? ==>
              var o := z.row.evidence.outcome;
              match o.kind
              case DeclaredAbstained => AbstainedBy(n, ts)(z) == [Abstention(ExecutionKey(n, t), z.row.digest, o.reasonCode)]
              case DeclaredMissing => MissingBy(n, ts)(z) == [MissingOfTrace(n, t, z)]
              case DeclaredInvalid => InvalidBy(n, ts)(z) == [RowDiagnostic(z.row, DeclaredReason(o.reasonCode))]
  {
    hide Home, ExecutionKey, RowDiagnostic;
  }

  lemma EarlyEnds(n: Names, p: Protocol, ts: seq<Trace>, rs: seq<Receipt>, i: nat, t: Trace)
    requires CollisionFree(n) && (forall q :: q in rs ==> Genuine(n, q)) && KeysApart(n, ts) && i < |rs|
    requires Ends(n, p, ts, rs, i, TooEarly(t))
    ensures Listed(n, p, ts, rs, i, TooEarly(t))
  {
    var r, a := rs[i], Admit(n, p, rs);
    CountedIsAuthentic(p, rs, r);
    var x := RecordOf(n, r);
    RecordParts(n, p, rs, r);
    hide CollisionFree, Genuine, Admit, Counted, PlacedFor, Stable, PlacementOrder, Clashes, RowDiagnostic, KeysApart, Home, LineageMatches, RowOf, EvidenceKey, InvalidBy;
    Visited(n, p, rs, x);
    HomeIs(n, ts, r, t);
    HomeAdds(n, ts, x, t);
    VisitedListed(n, ts, a, x);
    assert RowDiagnostic(x.row, PredatesCompletion) in InvalidBy(n, ts)(x);
  }

  lemma SoleIsHome(n: Names, p: Protocol, ts: seq<Trace>, rs: seq<Receipt>, t: Trace, r: Receipt)
    requires CollisionFree(n) && (forall q :: q in rs ==> Genuine(n, q)) && KeysApart(n, ts)
    requires t in ts && SoleReceipt(n, p, rs, t, r)
    ensures r.Authentic? && RecordOf(n, r) in PlacementOrder(Stable(Admit(n, p, rs)))
    ensures Home(n, ts, RecordOf(n, r)) == Some(t) && OnTime(t, RecordOf(n, r)) && RecordOf(n, r).row == RowOf(r)
  {
    CountedIsAuthentic(p, rs, r);
    SoleMeans(n, p, rs, r, t);
    RecordParts(n, p, rs, r);
    hide CollisionFree, Genuine, Admit, Counted, Stable, PlacementOrder, Clashes, KeysApart, Home, LineageMatches, EvidenceKey, SoleReceipt;
    Visited(n, p, rs, RecordOf(n, r));
    HomeIs(n, ts, r, t);
  }

  lemma DeclarationFrom(n: Names, ts: seq<Trace>, s: Placement, z: Record, t: Trace, r: Receipt)
    requires r.Authentic? && r.evidence.outcome.NotScored? && z.row == RowOf(r)
    requires Home(n, ts, z) == Some(t) && OnTime(t, z) && Includes(n, ts, s, z)
    ensures Declaration(n, s, t, r)
  {
    HomeAdds(n, ts, z, t);
    hide Home, ExecutionKey, RowDiagnostic, InvalidBy, AbstainedBy, MissingBy;
  }

  lemma DeclarationListed(n: Names, p: Protocol, ts: seq<Trace>, rs: seq<Receipt>, t: Trace, r: Receipt)
    requires CollisionFree(n) && (forall q :: q in rs ==> Genuine(n, q)) && KeysApart(n, ts)
    requires t in ts && SoleReceipt(n, p, rs, t, r) && r.Authentic? && r.evidence.outcome.NotScored?
    ensures Declaration(n, PlacedFor(n, ts, Admit(n, p, rs)), t, r)
  {
    hide CollisionFree, Genuine, Admit, PlacedFor, Stable, PlacementOrder, KeysApart, Home, SoleReceipt, OnTime, Includes, Declaration, RecordOf, RowOf;
    var a, x := Admit(n, p, rs), RecordOf(n, r);
    SoleIsHome(n, p, ts, rs, t, r);
    VisitedListed(n, ts, a, x);
    DeclarationFrom(n, ts, PlacedFor(n, ts, a), x, t, r);
  }

  lemma SoleSeen(n: Names, p: Protocol, inputs: seq<Trace>, rs: seq<Receipt>, t: Trace, r: Receipt)
    requires CollisionFree(n) && (forall q :: q in rs ==> Genuine(n, q)) && t in TraceRecords(n, inputs)
    requires SoleReceipt(n, p, rs, t, r) && r.Authentic?
    ensures var s := Placed(n, p, inputs, rs);
            At(if r.evidence.outcome.Scored? then s.scored else s.declared, ExecutionKey(n, t)) == Some(RecordOf(n, r))
  {
    var x := RecordOf(n, r);
    assert x.row.evidence == r.evidence;
    hide TraceRecords, CollisionFree, Genuine, Placed, SoleReceipt, ExecutionKey, RecordOf;
    assert SoleRecord(n, p, rs, t, x);
    PlacedMaps(n, p, inputs, rs, t);
  }

  lemma ScoredEnds(n: Names, p: Protocol, inputs: seq<Trace>, rs: seq<Receipt>, i: nat, t: Trace)
    requires CollisionFree(n) && (forall q :: q in rs ==> Genuine(n, q)) && i < |rs|
    requires Ends(n, p, TraceRecords(n, inputs), rs, i, Scores(t))
    ensures Listed(n, p, TraceRecords(n, inputs), rs, i, Scores(t))
  {
    hide TraceRecords, CollisionFree, Genuine, Admit, PlacedFor, SoleReceipt, ExecutionKey, RecordOf, At, Counted, FirstCopy;
    SoleIsCounted(n, p, rs, t, rs[i]);
    CountedIsAuthentic(p, rs, rs[i]);
    SoleSeen(n, p, inputs, rs, t, rs[i]);
  }

  lemma DeclaredEnds(n: Names, p: Protocol, inputs: seq<Trace>, rs: seq<Receipt>, i: nat, t: Trace)
    requires CollisionFree(n) && (forall q :: q in rs ==> Genuine(n, q)) && i < |rs|
    requires Ends(n, p, TraceRecords(n, inputs), rs, i, Declares(t))
    ensures Listed(n, p, TraceRecords(n, inputs), rs, i, Declares(t))
  {
    RetainedApart(n, inputs);
    hide TraceRecords, CollisionFree, Genuine, Admit, PlacedFor, SoleReceipt, ExecutionKey, RecordOf, At, Counted, FirstCopy, Declaration, KeysApart;
    SoleIsCounted(n, p, rs, t, rs[i]);
    CountedIsAuthentic(p, rs, rs[i]);
    SoleSeen(n, p, inputs, rs, t, rs[i]);
    DeclarationListed(n, p, TraceRecords(n, inputs), rs, t, rs[i]);
  }

  lemma SoleIsCounted(n: Names, p: Protocol, rs: seq<Receipt>, t: Trace, r: Receipt)
    requires SoleReceipt(n, p, rs, t, r)
    ensures Counted(p, rs, r)
  {
  }

  /** Whatever becomes of a receipt, the dataset says so. */
  lemma FateListed(n: Names, p: Protocol, inputs: seq<Trace>, rs: seq<Receipt>, i: nat, f: Fate)
    requires CollisionFree(n) && (forall q :: q in rs ==> Genuine(n, q)) && i < |rs| && Ends(n, p, TraceRecords(n, inputs), rs, i, f)
    ensures Listed(n, p, TraceRecords(n, inputs), rs, i, f)
  {
    var ts := TraceRecords(n, inputs);
    RetainedApart(n, inputs);
    hide TraceRecords, CollisionFree, Genuine, Listed, KeysApart, SoleReceipt, FirstCopy, Clashes, Counted, LineageMatches, TraceKey, EvidenceKey;
    match f {
      case Refused => RefusedEnds(n, p, ts, rs, i);
      case Copied => CopiedEnds(n, p, ts, rs, i);
      case Clashed => ClashedEnds(n, p, ts, rs, i);
      case Orphaned => OrphanedEnds(n, p, ts, rs, i);
      case Mismatched(t) => HomelessEnds(n, p, ts, rs, i, t);
      case TooEarly(t) => EarlyEnds(n, p, ts, rs, i, t);
      case Scores(t) => ScoredEnds(n, p, inputs, rs, i, t);
      case Declares(t) => DeclaredEnds(n, p, inputs, rs, i, t);
    }
  }

  // ----- and the lists hold nothing else

  /** A visited record is that of a first copy that does not clash. */
  lemma VisitedAt(n: Names, p: Protocol, rs: seq<Receipt>, z: Record) returns (i: nat)
    requires CollisionFree(n) && (forall q :: q in rs ==> Genuine(n, q)) && z in PlacementOrder(Stable(Admit(n, p, rs)))
    ensures i < |rs| && Alone(n, p, rs, i) && rs[i].Authentic? && z == RecordOf(n, rs[i])
  {
    hide CollisionFree, Genuine, Admit, Counted, Stable, PlacementOrder, FirstCopy, EvidenceKey, RecordOf;
    Visited(n, p, rs, z);
    var r :| Counted(p, rs, r) && r.Authentic? && !Clashes(n, p, rs, r) && z == RecordOf(n, r);
    i := FirstOf(n, p, rs, r);
  }

  lemma OrphanEntry(n: Names, p: Protocol, ts: seq<Trace>, rs: seq<Receipt>, d: Diagnostic) returns (i: nat)
    requires CollisionFree(n) && (forall q :: q in rs ==> Genuine(n, q)) && KeysApart(n, ts)
    requires d in PlacedFor(n, ts, Admit(n, p, rs)).orphan
    ensures i < |rs| && Ends(n, p, ts, rs, i, Orphaned) && rs[i].Authentic?
    ensures d == RowDiagnostic(RowOf(rs[i]), OrphanReason(n, ts, rs[i].evidence))
  {
    var a := Admit(n, p, rs);
    var zs := PlacementOrder(Stable(a));
    PlacedLists(n, ts, a);
    GatherMembers(zs, OrphanedBy(n, ts));
    hide CollisionFree, Genuine, Admit, PlacedFor, Stable, PlacementOrder, KeysApart, Alone, TraceIndex, RowDiagnostic, OrphanReason, Concerns, EvidenceKey, Gather;
    var z :| z in zs && d in OrphanedBy(n, ts)(z);
    i := VisitedAt(n, p, rs, z);
    forall t | t in ts ensures !Concerns(n, rs[i], t) { NotConcerned(n, ts, rs[i], t); }
  }

  lemma NotConcerned(n: Names, ts: seq<Trace>, r: Receipt, t: Trace)
    requires KeysApart(n, ts) && r.Authentic? && t in ts && RecordOf(n, r).joinKey !in TraceIndex(n, ts)
    ensures !Concerns(n, r, t)
  {
    IndexFinds(n, ts);
    hide TraceIndex, TraceKey, EvidenceKey;
  }

  lemma MismatchEntry(n: Names, p: Protocol, ts: seq<Trace>, rs: seq<Receipt>, z: Record) returns (i: nat, t: Trace)
    requires CollisionFree(n) && (forall q :: q in rs ==> Genuine(n, q)) && KeysApart(n, ts)
    requires z in PlacementOrder(Stable(Admit(n, p, rs))) && MismatchedBy(n, ts)(z) != []
    ensures i < |rs| && Ends(n, p, ts, rs, i, Mismatched(t)) && rs[i].Authentic? && z == RecordOf(n, rs[i])
  {
    hide CollisionFree, Genuine, Admit, Stable, PlacementOrder, KeysApart, Alone, TraceIndex, Concerns, LineageConflict, LineageMatches, RecordOf;
    i := VisitedAt(n, p, rs, z);
    t := HomeNames(n, ts, rs[i]);
    HomeIs(n, ts, rs[i], t);
  }

  lemma ClashReceipt(n: Names, p: Protocol, rs: seq<Receipt>, c: Conflict, row: Row) returns (r: Receipt)
    requires CollisionFree(n) && (forall q :: q in rs ==> Genuine(n, q))
    requires c in ClashingEvidence(DistinctEvidence(Stable(Admit(n, p, rs)))) && row in c.rows
    ensures c.multiple && Counted(p, rs, r) && r.Authentic? && Clashes(n, p, rs, r) && RecordOf(n, r).row == row
  {
    var stable := Stable(Admit(n, p, rs));
    StableDetermined(n, p, rs);
    DistinctEvidenceMembers(stable);
    StableCounted(n, p, rs);
    hide CollisionFree, Genuine, Admit, Stable, DistinctEvidence, ClashingEvidence, Counted, DigestDetermines, NoDuplicates, Clashes, RecordOf;
    var x, y := ClashFrom(DistinctEvidence(stable), c, row);
    r :| Counted(p, rs, r) && x == RecordOf(n, r);
    var q :| Counted(p, rs, q) && y == RecordOf(n, q);
    CountedIsAuthentic(p, rs, r);
    CountedIsAuthentic(p, rs, q);
    DifferentRecords(n, p, rs, r, q);
  }

  lemma ClashEntry(n: Names, p: Protocol, ts: seq<Trace>, rs: seq<Receipt>, c: Conflict, row: Row) returns (i: nat)
    requires CollisionFree(n) && (forall q :: q in rs ==> Genuine(n, q))
    requires c in ClashingEvidence(DistinctEvidence(Stable(Admit(n, p, rs)))) && row in c.rows
    ensures i < |rs| && Ends(n, p, ts, rs, i, Clashed) && rs[i].Authentic? && row == RowOf(rs[i]) && c.multiple
  {
    hide CollisionFree, Genuine, Admit, Stable, DistinctEvidence, ClashingEvidence, Counted, FirstCopy, EvidenceKey, RecordOf, RowOf;
    var r := ClashReceipt(n, p, rs, c, row);
    i := FirstOf(n, p, rs, r);
    RowOfFirst(n, rs[i], r);
  }

  lemma DifferentRecords(n: Names, p: Protocol, rs: seq<Receipt>, r: Receipt, q: Receipt)
    requires (forall x :: x in rs ==> Genuine(n, x)) && Counted(p, rs, r) && Counted(p, rs, q) && r.Authentic? && q.Authentic?
    requires RecordOf(n, r) != RecordOf(n, q) && RecordOf(n, r).joinKey == RecordOf(n, q).joinKey
    ensures Clashes(n, p, rs, r)
  {
    hide EvidenceKey, OneVerificationContext, Rejection, Genuine;
    RecordParts(n, p, rs, r);
    RecordParts(n, p, rs, q);
    if r.evidence == q.evidence { SameEvidenceSameRecord(n, p, rs, r, q); }
  }

  lemma RowOfFirst(n: Names, r: Receipt, q: Receipt)
    requires r.Authentic? && q.Authentic? && RecordOf(n, r) == RecordOf(n, q)
    ensures RowOf(r) == RecordOf(n, q).row
  {
    hide EvidenceKey, RowOf;
  }

  /** Every row of every conflict is that of a receipt that clashes or mismatches. */
  lemma ConflictEntry(n: Names, p: Protocol, ts: seq<Trace>, rs: seq<Receipt>, c: Conflict, row: Row) returns (i: nat, f: Fate)
    requires CollisionFree(n) && (forall q :: q in rs ==> Genuine(n, q)) && KeysApart(n, ts)
    requires c in PlacedFor(n, ts, Admit(n, p, rs)).conflicting && row in c.rows
    ensures i < |rs| && Ends(n, p, ts, rs, i, f) && rs[i].Authentic? && row == RowOf(rs[i])
    ensures if c.multiple then f == Clashed else f.Mismatched? && c == LineageConflict(RecordOf(n, rs[i]))
  {
    var a := Admit(n, p, rs);
    var zs := PlacementOrder(Stable(a));
    PlacedLists(n, ts, a);
    GatherMembers(zs, MismatchedBy(n, ts));
    hide CollisionFree, Genuine, Admit, PlacedFor, Stable, PlacementOrder, KeysApart, Alone, Ends, TraceIndex, Home, ClashingEvidence, DistinctEvidence, EvidenceKey, Gather;
    if c in ClashingEvidence(DistinctEvidence(Stable(a))) {
      i := ClashEntry(n, p, ts, rs, c, row);
      f := Clashed;
    } else {
      var z :| z in zs && c in MismatchedBy(n, ts)(z);
      var t;
      i, t := MismatchEntry(n, p, ts, rs, z);
      f := Mismatched(t);
    }
  }

  // ----- invalid rows and evidence

  /** How an invalid receipt is reported: refused, early, or declared invalid. */
  function InvalidRow(p: Protocol, r: Receipt, f: Fate): Option<Diagnostic> {
    if f.Refused? then Some(RefusalDiagnostic(p, r))
    else if !r.Authentic? then None
    else if f.TooEarly? then Some(RowDiagnostic(RowOf(r), PredatesCompletion))
    else if f.Declares? && r.evidence.outcome.NotScored? && r.evidence.outcome.kind.DeclaredInvalid?
    then Some(RowDiagnostic(RowOf(r), DeclaredReason(r.evidence.outcome.reasonCode)))
    else None
  }

  lemma AloneOnTime(n: Names, p: Protocol, ts: seq<Trace>, rs: seq<Receipt>, i: nat, t: Trace)
    requires i < |rs| && Alone(n, p, rs, i) && rs[i].Authentic? && t in ts && Concerns(n, rs[i], t) && LineageMatches(t, rs[i].evidence)
    ensures rs[i].evidence.producedAt < t.completedAt ==> Ends(n, p, ts, rs, i, TooEarly(t))
    ensures rs[i].evidence.producedAt >= t.completedAt ==>
              Ends(n, p, ts, rs, i, if rs[i].evidence.outcome.Scored? then Scores(t) else Declares(t))
  {
    SoleMeans(n, p, rs, rs[i], t);
    hide Counted, Clashes, LineageMatches, Concerns, SoleReceipt;
  }

  lemma HomeConcerns(n: Names, ts: seq<Trace>, r: Receipt) returns (t: Trace)
    requires KeysApart(n, ts) && r.Authentic? && Home(n, ts, RecordOf(n, r)).Some?
    ensures Home(n, ts, RecordOf(n, r)) == Some(t) && t in ts && Concerns(n, r, t) && LineageMatches(t, r.evidence)
  {
    t := HomeNames(n, ts, r);
    HomeIs(n, ts, r, t);
    hide TraceIndex, LineageMatches, Concerns, RecordOf, KeysApart, Home;
  }

  lemma RowAndEvidence(n: Names, r: Receipt)
    requires r.Authentic?
    ensures RecordOf(n, r).row == RowOf(r) && RowOf(r).evidence == r.evidence
  {
  }

  lemma InvalidVisited(n: Names, p: Protocol, ts: seq<Trace>, rs: seq<Receipt>, z: Record, d: Diagnostic) returns (i: nat, f: Fate)
    requires CollisionFree(n) && (forall q :: q in rs ==> Genuine(n, q)) && KeysApart(n, ts)
    requires z in PlacementOrder(Stable(Admit(n, p, rs))) && d in InvalidBy(n, ts)(z)
    ensures i < |rs| && Ends(n, p, ts, rs, i, f) && InvalidRow(p, rs[i], f) == Some(d)
  {
    hide CollisionFree, Genuine, Admit, Stable, PlacementOrder, KeysApart, Alone, Home, Concerns, LineageMatches, RowDiagnostic, Ends, EvidenceKey, RowOf;
    i := VisitedAt(n, p, rs, z);
    assert z.row == RowOf(rs[i]) && z.row.evidence == rs[i].evidence by { RowAndEvidence(n, rs[i]); }
    var t := HomeConcerns(n, ts, rs[i]);
    AloneOnTime(n, p, ts, rs, i, t);
    f := if rs[i].evidence.producedAt < t.completedAt then TooEarly(t) else Declares(t);
  }

  /** Every invalid row is that of a receipt refused, early, or declared invalid. */
  lemma InvalidEntry(n: Names, p: Protocol, ts: seq<Trace>, rs: seq<Receipt>, d: Diagnostic) returns (i: nat, f: Fate)
    requires CollisionFree(n) && (forall q :: q in rs ==> Genuine(n, q)) && KeysApart(n, ts)
    requires d in PlacedFor(n, ts, Admit(n, p, rs)).invalid
    ensures i < |rs| && Ends(n, p, ts, rs, i, f) && InvalidRow(p, rs[i], f) == Some(d)
  {
    var a := Admit(n, p, rs);
    var zs := PlacementOrder(Stable(a));
    PlacedLists(n, ts, a);
    GatherMembers(zs, InvalidBy(n, ts));
    RefusedListed(n, p, rs, d);
    hide CollisionFree, Genuine, Admit, PlacedFor, Stable, PlacementOrder, KeysApart, Counted, InvalidAfterDrift, InvalidBy, RefusalDiagnostic, Gather;
    if d in InvalidAfterDrift(a) {
      var r :| r in rs && !Counted(p, rs, r) && d == RefusalDiagnostic(p, r);
      i :| 0 <= i < |rs| && rs[i] == r;
      f := Refused;
    } else {
      var z :| z in zs && d in InvalidBy(n, ts)(z);
      i, f := InvalidVisited(n, p, ts, rs, z, d);
    }
  }

  /** Sole receipts are sole whichever copy is looked at. */
  lemma SoleCopy(n: Names, p: Protocol, rs: seq<Receipt>, t: Trace, r: Receipt, q: Receipt)
    requires SoleReceipt(n, p, rs, t, r) && Counted(p, rs, q) && q.Authentic? && r.Authentic? && q.evidence == r.evidence
    ensures SoleReceipt(n, p, rs, t, q)
  {
    hide Counted, LineageMatches, TraceKey, EvidenceKey;
  }

  lemma SoleRecordReceipt(n: Names, p: Protocol, rs: seq<Receipt>, t: Trace, x: Record) returns (r: Receipt)
    requires SoleRecord(n, p, rs, t, x)
    ensures SoleReceipt(n, p, rs, t, r) && r.Authentic? && x == RecordOf(n, r)
  {
    r :| SoleReceipt(n, p, rs, t, r) && x == RecordOf(n, r);
  }

  lemma RecordedEntry(n: Names, p: Protocol, ts: seq<Trace>, rs: seq<Receipt>, t: Trace, x: Record) returns (i: nat)
    requires CollisionFree(n) && (forall q :: q in rs ==> Genuine(n, q)) && t in ts && SoleRecord(n, p, rs, t, x)
    ensures i < |rs| && rs[i].Authentic? && x == RecordOf(n, rs[i])
    ensures Ends(n, p, ts, rs, i, if IsScored(x) then Scores(t) else Declares(t))
  {
    hide CollisionFree, Genuine, Counted, LineageMatches, FirstCopy, SoleReceipt, EvidenceKey, RowOf;
    var r := SoleRecordReceipt(n, p, rs, t, x);
    SoleIsCounted(n, p, rs, t, r);
    i := FirstOf(n, p, rs, r);
    FirstIsCounted(p, rs, i);
    SoleCopy(n, p, rs, t, r, rs[i]);
    RecordParts(n, p, rs, rs[i]);
  }

  lemma FirstIsCounted(p: Protocol, rs: seq<Receipt>, i: nat)
    requires i < |rs| && FirstCopy(p, rs, i)
    ensures Counted(p, rs, rs[i])
  {
  }

  lemma PlacementKeyed(n: Names, ts: seq<Trace>, a: Admission)
    requires KeysApart(n, ts)
    ensures KeyedBy(n, ts, PlacedFor(n, ts, a).scored) && KeyedBy(n, ts, PlacedFor(n, ts, a).declared)
  {
    hide Stable, InvalidAfterDrift, RejectedAfterDrift, ClashingEvidence, DistinctEvidence, SoleEvidence, Sort, SortCompact, FirstRejections, PlaceAll, KeysApart;
    var s := Start(n, ts, InvalidAfterDrift(a), RejectedAfterDrift(a), ClashingEvidence(DistinctEvidence(Stable(a))));
    PlacedKeys(n, ts, s, PlacementOrder(Stable(a)));
  }

  /** Every piece of scored or declared evidence is that of a trace's sole receipt. */
  lemma EvidenceEntry(n: Names, p: Protocol, inputs: seq<Trace>, rs: seq<Receipt>, k: Text, scored: bool) returns (i: nat, t: Trace)
    requires CollisionFree(n) && (forall q :: q in rs ==> Genuine(n, q))
    requires var s := Placed(n, p, inputs, rs); k in if scored then s.scored else s.declared
    ensures var s := Placed(n, p, inputs, rs);
            && i < |rs| && rs[i].Authentic? && k == ExecutionKey(n, t) && t in TraceRecords(n, inputs)
            && Ends(n, p, TraceRecords(n, inputs), rs, i, if scored then Scores(t) else Declares(t))
            && (if scored then s.scored else s.declared)[k] == RecordOf(n, rs[i])
  {
    var s, ts := Placed(n, p, inputs, rs), TraceRecords(n, inputs);
    RetainedApart(n, inputs);
    PlacementKeyed(n, ts, Admit(n, p, rs));
    hide TraceRecords, CollisionFree, Genuine, PlacedFor, Admit, KeysApart, ExecutionKey, Ends, SoleRecord, RecordOf, IsScored;
    t :| t in ts && k == ExecutionKey(n, t);
    PlacedMaps(n, p, inputs, rs, t);
    var x := (if scored then s.scored else s.declared)[k];
    i := RecordedEntry(n, p, ts, rs, t, x);
  }

  lemma {:induction false} CopyPositions(p: Protocol, rs: seq<Receipt>, digest: Text) returns (j: nat, i: nat)
    ensures CopyCount(p, rs, digest) >= 1 ==> i < |rs| && Admitted(p, rs[i]) && rs[i].evidenceDigest == digest
    ensures CopyCount(p, rs, digest) >= 2 ==> j < i && Admitted(p, rs[j]) && rs[j].evidenceDigest == digest
  {
    hide Rejection;
    j, i := 0, 0;
    if rs != [] {
      var k := |rs| - 1;
      j, i := CopyPositions(p, rs[..k], digest);
      if Admitted(p, rs[k]) && rs[k].evidenceDigest == digest { j, i := i, k; }
    }
  }

  lemma RepeatedIs(xs: seq<Record>, d: Duplicate)
    requires d in RepeatedEvidence(xs)
    ensures d.occurrences == |Group(xs, RecordDigest, d.digest)| && d.occurrences > 1
  {
    GatherMembers(Keys(xs, RecordDigest), RepeatedByDigest(xs));
    hide Gather, Group, Keys;
  }

  /** Every repeated row is that of a later copy, with the number of copies. */
  lemma RepeatedEntry(n: Names, p: Protocol, ts: seq<Trace>, rs: seq<Receipt>, d: Duplicate) returns (i: nat)
    requires CollisionFree(n) && d in RepeatedEvidence(Stable(Admit(n, p, rs)))
    ensures i < |rs| && rs[i].Authentic? && Ends(n, p, ts, rs, i, Copied)
    ensures rs[i].evidenceDigest == d.digest && d.occurrences == CopyCount(p, rs, d.digest)
  {
    hide Rejection, OneVerificationContext, CopyCount, Group, Gather, RepeatedEvidence, Drifts, CollisionFree, RecordOf, EvidenceKey;
    RepeatedNotDrifting(n, p, rs, d);
    RepeatedIs(Stable(Admit(n, p, rs)), d);
    CopiesGrouped(n, p, rs, d.digest);
    var j;
    j, i := CopyPositions(p, rs, d.digest);
    LaterCopy(p, rs, j, i);
  }

  lemma RepeatedNotDrifting(n: Names, p: Protocol, rs: seq<Receipt>, d: Duplicate)
    requires CollisionFree(n) && d in RepeatedEvidence(Stable(Admit(n, p, rs)))
    ensures OneVerificationContext(rs) && Stable(Admit(n, p, rs)) == Gather(rs, AdmittedFrom(n, p))
  {
    hide OneVerificationContext, Group, Drifts, CollisionFree;
    DriftIff(n, p, rs);
  }

  lemma LaterCopy(p: Protocol, rs: seq<Receipt>, j: nat, i: nat)
    requires j < i < |rs| && Admitted(p, rs[j]) && Admitted(p, rs[i]) && OneVerificationContext(rs)
    requires rs[j].evidenceDigest == rs[i].evidenceDigest
    ensures Counted(p, rs, rs[i]) && !FirstCopy(p, rs, i)
  {
    hide Rejection, OneVerificationContext;
    assert rs[i] in rs && rs[j] in rs;
    assert Counted(p, rs, rs[j]);
  }

  /** Each receipt has exactly one fate, and the dataset shows it. */
  lemma EveryReceiptEnds(n: Names, p: Protocol, inputs: seq<Trace>, rs: seq<Receipt>, i: nat) returns (f: Fate)
    requires CollisionFree(n) && (forall q :: q in rs ==> Genuine(n, q)) && i < |rs|
    ensures Ends(n, p, TraceRecords(n, inputs), rs, i, f) && Listed(n, p, TraceRecords(n, inputs), rs, i, f)
    ensures forall g :: Ends(n, p, TraceRecords(n, inputs), rs, i, g) ==> g == f
  {
    RetainedApart(n, inputs);
    hide TraceRecords, CollisionFree, Genuine, KeysApart, Ends, Listed;
    f := OneFate(n, p, TraceRecords(n, inputs), rs, i);
    FateListed(n, p, inputs, rs, i, f);
  }
}
