/** The diagnostics and the scored evidence add up to the receipts, and what an admissible dataset means. */
module EvidenceConservation {
  import opened CodeUnits
  import opened Wrappers
  import opened Sorting
  import opened Grouping
  import opened EvidenceModel
  import opened EvidenceJoin
  import opened EvidenceAdmission
  import opened EvidenceTallies
  import opened EvidencePlacement
  import opened EvidenceOrder
  import opened EvidenceResult
  import opened EvidenceFates

  function RowCount(c: Conflict): int { |c.rows| }
  function ExtraCount(d: Duplicate): int { d.occurrences - 1 }
  function One<T>(x: T): int { 1 }

  function RowsIn(cs: seq<Conflict>): int { Sum(cs, RowCount) }
  function ExtraIn(ds: seq<Duplicate>): int { Sum(ds, ExtraCount) }

  /** Rows a placement accounts for. */
  function Accounted(s: Placement): int {
    |s.invalid| + |s.orphan| + RowsIn(s.conflicting) + |s.abstained| + |s.missing| + |s.scored|
  }

  // ----- sums

  lemma {:induction false} SumAppend<A>(xs: seq<A>, ys: seq<A>, f: A -> int)
    ensures Sum(xs + ys, f) == Sum(xs, f) + Sum(ys, f)
  {
    if ys == [] {
      assert xs + ys == xs;
    } else {
      var n := |ys| - 1;
      assert (xs + ys)[..|xs| + n] == xs + ys[..n];
      SumAppend(xs, ys[..n], f);
    }
  }

  lemma SumOne<A>(x: A, f: A -> int)
    ensures Sum([x], f) == f(x)
  {
    assert [x][..0] == [];
    assert Sum([], f) == 0;
  }

  lemma {:induction false} SumOnes<A>(xs: seq<A>)
    ensures Sum(xs, One) == |xs|
  {
    if xs != [] { SumOnes(xs[..|xs| - 1]); }
  }

  lemma {:induction false} SumGather<A(!new), B>(xs: seq<A>, f: A -> seq<B>, g: B -> int, h: A -> int)
    requires forall x :: h(x) == Sum(f(x), g)
    ensures Sum(Gather(xs, f), g) == Sum(xs, h)
  {
    if xs != [] {
      var n := |xs| - 1;
      SumGather(xs[..n], f, g, h);
      SumAppend(Gather(xs[..n], f), f(xs[n]), g);
    }
  }

  /** Two gatherings that split each element's weight split the total. */
  lemma {:induction false} SumSplit<A(!new)>(xs: seq<A>, f: A -> int, g: A -> int, h: A -> int)
    requires forall x :: x in xs ==> f(x) + g(x) == h(x)
    ensures Sum(xs, f) + Sum(xs, g) == Sum(xs, h)
  {
    if xs != [] {
      DropLast(xs);
      assert xs[|xs| - 1] in xs;
      SumSplit(xs[..|xs| - 1], f, g, h);
    }
  }

  // ----- receipts

  lemma {:induction false} AdmitCounts(n: Names, p: Protocol, rs: seq<Receipt>)
    ensures |Admit(n, p, rs).invalid| + |Admit(n, p, rs).admitted| == |rs|
  {
    if rs != [] {
      var k := |rs| - 1;
      AdmitCounts(n, p, rs[..k]);
      AdmitStep(n, p, rs, k);
      assert rs[..k + 1] == rs;
    }
  }

  lemma DriftCounts(a: Admission)
    ensures |InvalidAfterDrift(a)| + |Stable(a)| == |a.invalid| + |a.admitted|
  {
    GatherCounts(a.admitted, DriftDiagnostic, One);
    SumOnes(a.admitted);
  }

  lemma FirstSplits(k: Text, g: seq<Record>)
    requires g != []
    ensures |First(g)| + Sum(RepeatedRow(k, g), ExtraCount) == |g|
  {
    if |g| > 1 { SumOne(RepeatedRow(k, g)[0], ExtraCount); }
  }

  lemma DistinctCounts(rs: seq<Record>)
    ensures |rs| == |DistinctEvidence(rs)| + ExtraIn(RepeatedEvidence(rs))
  {
    hide Group, Keys, Gather, Sum, First, RepeatedRow;
    var keys := Keys(rs, RecordDigest);
    var size := k => |Group(rs, RecordDigest, k)|;
    var first := k => |FirstByDigest(rs)(k)|;
    var extra := k => Sum(RepeatedByDigest(rs)(k), ExtraCount);
    GatherCounts(keys, FirstByDigest(rs), first);
    SumGather(keys, RepeatedByDigest(rs), ExtraCount, extra);
    forall k | k in keys ensures first(k) + extra(k) == size(k) {
      GroupMembers(rs, RecordDigest, k);
      FirstSplits(k, Group(rs, RecordDigest, k));
    }
    SumSplit(keys, first, extra, size);
    GroupSizes(rs, RecordDigest, size);
  }

  lemma OnlySplits(k: Text, g: seq<Record>)
    requires g != []
    ensures |Only(g)| + Sum(ClashingRows(k, g), RowCount) == |g|
  {
    hide SortStrings;
    if |g| > 1 {
      SumOne(ClashingRows(k, g)[0], RowCount);
      SortPermutes(Map(RowOfRecord, g), ByKey(DigestOf));
    }
  }

  lemma SoleCounts(rs: seq<Record>)
    ensures |rs| == |SoleEvidence(rs)| + RowsIn(ClashingEvidence(rs))
  {
    hide Group, Keys, Gather, Sum, Only, ClashingRows;
    var keys := Keys(rs, RecordKey);
    var size := k => |Group(rs, RecordKey, k)|;
    var only := k => |OnlyByKey(rs)(k)|;
    var rows := k => Sum(ClashByKey(rs)(k), RowCount);
    GatherCounts(keys, OnlyByKey(rs), only);
    SumGather(keys, ClashByKey(rs), RowCount, rows);
    forall k | k in keys ensures only(k) + rows(k) == size(k) {
      GroupMembers(rs, RecordKey, k);
      OnlySplits(k, Group(rs, RecordKey, k));
    }
    SumSplit(keys, only, rows, size);
    GroupSizes(rs, RecordKey, size);
  }

  // ----- placement

  lemma PlaceOnCounts(n: Names, t: Trace, s: Placement, z: Record)
    requires ExecutionKey(n, t) !in s.scored
    ensures Accounted(PlaceOn(n, t, s, z)) == Accounted(s) + 1
  {
    hide ExecutionKey, RowDiagnostic, RowsIn;
  }

  lemma PlaceCounts(n: Names, ts: seq<Trace>, s: Placement, z: Record)
    requires z.joinKey in TraceIndex(n, ts) ==> ExecutionKey(n, TraceIndex(n, ts)[z.joinKey]) !in s.scored
    ensures Accounted(Place(n, ts, s, z)) == Accounted(s) + 1
  {
    hide TraceIndex, ExecutionKey, LineageMatches, OrphanReason, RowDiagnostic, PlaceOn;
    if z.joinKey in TraceIndex(n, ts) {
      PlaceOnCounts(n, TraceIndex(n, ts)[z.joinKey], s, z);
      SumAppend(s.conflicting, [LineageConflict(z)], RowCount);
      SumOne(LineageConflict(z), RowCount);
    }
  }

  lemma {:induction false} PlaceAllCounts(n: Names, ts: seq<Trace>, s: Placement, zs: seq<Record>)
    requires CollisionFree(n) && KeysApart(n, ts) && KeyedOnce(zs) && s.scored == map[] && s.declared == map[]
    ensures Accounted(PlaceAll(n, ts, s, zs)) == Accounted(s) + |zs|
  {
    if zs != [] {
      hide CollisionFree, Accounted, Place;
      var k := |zs| - 1;
      var front, last := zs[..k], zs[k];
      PlaceAllCounts(n, ts, s, front);
      FreshKey(n, ts, s, front, last);
      PlaceCounts(n, ts, PlaceAll(n, ts, s, front), last);
    }
  }

  lemma KeyedFront(front: seq<Record>, z: Record)
    requires KeyedOnce(front + [z])
    ensures KeyedOnce(front)
  {
    var zs := front + [z];
    forall i, j | 0 <= i < j < |front| ensures front[i].joinKey != front[j].joinKey {
      assert zs[i] == front[i] && zs[j] == front[j];
    }
  }

  lemma NothingSeen(n: Names, seen: (Option<Record>, Option<Record>), front: seq<Record>, t: Trace)
    requires SeesOnly(n, seen, front, t)
    ensures (forall x :: x in front ==> !Fits(n, t, x)) ==> seen.0 == None
  {
    if seen.0.Some? {
      assert seen.0.value in front && Fits(n, t, seen.0.value);
    }
  }

  /** No earlier record was scored for the trace that the next record names. */
  lemma FreshKey(n: Names, ts: seq<Trace>, s: Placement, front: seq<Record>, z: Record)
    requires CollisionFree(n) && KeysApart(n, ts) && KeyedOnce(front + [z]) && s.scored == map[] && s.declared == map[]
    ensures z.joinKey in TraceIndex(n, ts) ==>
              ExecutionKey(n, TraceIndex(n, ts)[z.joinKey]) !in PlaceAll(n, ts, s, front).scored
  {
    hide CollisionFree, ExecutionKey, TraceKey, LineageMatches, PlaceAll, TraceIndex;
    if z.joinKey in TraceIndex(n, ts) {
      var t := TraceIndex(n, ts)[z.joinKey];
      IndexFinds(n, ts);
      KeyedFront(front, z);
      PlacedSeen(n, ts, s, front, t);
      forall x | x in front ensures x.joinKey != z.joinKey {
        var i :| 0 <= i < |front| && front[i] == x;
        assert (front + [z])[i] == x && (front + [z])[|front|] == z;
      }
      var seen := Seen(n, PlaceAll(n, ts, s, front), t);
      NothingSeen(n, seen, front, t);
    }
  }

  /** Each receipt is counted once: invalid, extra duplicate, conflict row, orphan, declared, or scored evidence. */
  lemma ReceiptsAccounted(n: Names, p: Protocol, inputs: seq<Trace>, rs: seq<Receipt>)
    requires CollisionFree(n) && forall r :: r in rs ==> Genuine(n, r)
    ensures |rs| == Accounted(Placed(n, p, inputs, rs)) + ExtraIn(RepeatedEvidence(Stable(Admit(n, p, rs))))
  {
    var a := Admit(n, p, rs);
    var ts, stable := TraceRecords(n, inputs), Stable(a);
    var unique := DistinctEvidence(stable);
    AdmitCounts(n, p, rs);
    DriftCounts(a);
    DistinctCounts(stable);
    SoleCounts(unique);
    SortPermutes(SoleEvidence(unique), ByKey(RecordDigest));
    RetainedApart(n, inputs);
    StableDetermined(n, p, rs);
    SoleKeyedOnce(stable);
    var start := Start(n, ts, InvalidAfterDrift(a), RejectedAfterDrift(a), ClashingEvidence(unique));
    hide TraceRecords, Admit, CollisionFree, Genuine, Stable, DistinctEvidence, SoleEvidence, Sort, InvalidAfterDrift, RejectedAfterDrift, FirstRejections, SortCompact, ClashingEvidence;
    PlaceAllCounts(n, ts, start, PlacementOrder(stable));
  }

  /** No diagnostic of any kind. */
  predicate Clean(d: Diagnostics) {
    && d.missing == [] && d.invalid == [] && d.abstained == [] && d.orphan == [] && d.duplicate == [] && d.conflicting == []
    && d.duplicateTraces == [] && d.conflictingTraces == [] && d.missingProfiles == []
  }

  lemma BlockingEmpty(d: Diagnostics)
    ensures BlockingOf(d) == {} <==> Clean(d)
  {
    var b := BlockingOf(d);
    if b == {} {
      assert MissingBlocks !in b && InvalidBlocks !in b && AbstainedBlocks !in b && OrphanBlocks !in b && DuplicateBlocks !in b;
      assert ConflictBlocks !in b && DuplicateTraceBlocks !in b && ConflictTraceBlocks !in b && MissingProfileBlocks !in b;
    }
  }

  /** A dataset is admissible iff it reports nothing at all. */
  lemma AdmissibleIsClean(n: Names, p: Protocol, inputs: seq<Trace>, rs: seq<Receipt>)
    ensures Admissible(DatasetOf(n, p, inputs, rs)) <==> Clean(DatasetOf(n, p, inputs, rs).diagnostics)
  {
    BlockingEmpty(DatasetOf(n, p, inputs, rs).diagnostics);
    hide DiagnosticsOf, BlockingOf, Clean, PlacedFor, Admit, TraceRecords, Executions, SplitTallies, SliceTallies;
  }

  lemma SortCompactEmpty<T(!new)>(n: Names, xs: seq<T>, key: T -> CompactKey)
    ensures SortCompact(n, xs, key) == [] <==> xs == []
  {
    SortPermutes(xs, ByKey((x: T) => n.canonical(key(x))));
  }

  /** A placement with empty lists and no repeated evidence leaves a receipt no fate but to be scored. */
  lemma NothingListed(n: Names, p: Protocol, ts: seq<Trace>, rs: seq<Receipt>, i: nat, f: Fate)
    requires i < |rs| && Listed(n, p, ts, rs, i, f)
    requires var s := PlacedFor(n, ts, Admit(n, p, rs));
             s.invalid == [] && s.orphan == [] && s.conflicting == [] && s.abstained == [] && s.missing == []
    requires RepeatedEvidence(Stable(Admit(n, p, rs))) == []
    ensures f.Scores?
  {
    hide Admit, PlacedFor, Stable, RepeatedEvidence, RefusalDiagnostic, RowDiagnostic, CopyCount, ExecutionKey, EvidenceKey;
  }

  lemma ScoresIsSole(n: Names, p: Protocol, ts: seq<Trace>, rs: seq<Receipt>, i: nat, f: Fate)
    requires i < |rs| && Ends(n, p, ts, rs, i, f) && f.Scores?
    ensures rs[i].Authentic? && f.trace in ts && SoleReceipt(n, p, rs, f.trace, rs[i]) && rs[i].evidence.outcome.Scored?
  {
  }

  /** The lists that block admissibility, before sorting. */
  lemma CleanLists(n: Names, p: Protocol, inputs: seq<Trace>, rs: seq<Receipt>)
    requires Clean(DatasetOf(n, p, inputs, rs).diagnostics)
    ensures var s, ts := Placed(n, p, inputs, rs), TraceRecords(n, inputs);
            && s.invalid == [] && s.orphan == [] && s.conflicting == [] && s.abstained == [] && s.missing == []
            && Gather(ts, MissingFrom(n, s)) == [] && RepeatedEvidence(Stable(Admit(n, p, rs))) == []
  {
    var ts, a, s := TraceRecords(n, inputs), Admit(n, p, rs), Placed(n, p, inputs, rs);
    hide TraceRecords, Admit, PlacedFor, Executions, PairKeys, CaseUnits, LogicalUnits, SortCompact, OutcomeOf, Stable, Contexts;
    SortCompactEmpty(n, s.missing + Gather(ts, MissingFrom(n, s)), MissingKey);
    SortCompactEmpty(n, s.invalid, DiagnosticKey);
    SortCompactEmpty(n, s.abstained, AbstentionKey);
    SortCompactEmpty(n, s.orphan, DiagnosticKey);
    SortCompactEmpty(n, RepeatedEvidence(Stable(a)), DuplicateKey);
    SortCompactEmpty(n, s.conflicting, ConflictKey);
  }

  /** In an admissible dataset every receipt is the scored sole evidence of its own trace, and no execution lacks evidence. */
  lemma CleanMeansAllScored(n: Names, p: Protocol, inputs: seq<Trace>, rs: seq<Receipt>)
    requires CollisionFree(n) && (forall r :: r in rs ==> Genuine(n, r))
    requires Admissible(DatasetOf(n, p, inputs, rs))
    ensures forall r :: r in rs ==>
              r.Authentic? && r.evidence.outcome.Scored? && exists t :: t in TraceRecords(n, inputs) && SoleReceipt(n, p, rs, t, r)
    ensures |Placed(n, p, inputs, rs).scored| == |rs|
    ensures forall t :: t in TraceRecords(n, inputs) ==> OutcomeOf(n, Placed(n, p, inputs, rs), t) != NoEvidence
  {
    var ts, a, s := TraceRecords(n, inputs), Admit(n, p, rs), Placed(n, p, inputs, rs);
    AdmissibleIsClean(n, p, inputs, rs);
    CleanLists(n, p, inputs, rs);
    ReceiptsAccounted(n, p, inputs, rs);
    MissingListed(n, s, ts);
    hide CollisionFree, Genuine, TraceRecords, Admit, PlacedFor, OutcomeOf, Stable, RepeatedEvidence, Gather, SoleReceipt, Ends, Listed, DatasetOf;
    forall r | r in rs
      ensures r.Authentic? && r.evidence.outcome.Scored? && exists t :: t in ts && SoleReceipt(n, p, rs, t, r)
    {
      var i :| 0 <= i < |rs| && rs[i] == r;
      var f := EveryReceiptEnds(n, p, inputs, rs, i);
      NothingListed(n, p, ts, rs, i, f);
      ScoresIsSole(n, p, ts, rs, i, f);
    }
  }

  lemma MissingListed(n: Names, s: Placement, ts: seq<Trace>)
    ensures Gather(ts, MissingFrom(n, s)) == [] ==> forall t :: t in ts ==> OutcomeOf(n, s, t) != NoEvidence
  {
    hide OutcomeOf, ExecutionKey;
    GatherMembers(ts, MissingFrom(n, s));
    if t :| t in ts && OutcomeOf(n, s, t) == NoEvidence {
      assert MissingFrom(n, s)(t)[0] in Gather(ts, MissingFrom(n, s));
    }
  }
}
