/** Placing evidence on traces, the outcome of every execution, pairs, counts and the whole join. */
module EvidencePlacement {
  import opened CodeUnits
  import opened Wrappers
  import opened Sorting
  import opened Grouping
  import opened EvidenceModel
  import opened EvidenceJoin
  import opened EvidenceAdmission
  import opened EvidenceTallies

  // ----- indexes over the retained traces

  function TraceIndex(n: Names, ts: seq<Trace>): map<Text, Trace> {
    if ts == [] then map[] else TraceIndex(n, ts[..|ts| - 1])[TraceKey(n, ts[|ts| - 1]) := ts[|ts| - 1]]
  }

  function ProfileKeys(n: Names, ts: seq<Trace>): set<Text> { set t | t in ts :: TraceProfileKey(n, t) }
  function FailedKeys(n: Names, ts: seq<Trace>): set<Text> { set t | t in ts && !t.status.Success? :: TraceProfileKey(n, t) }

  predicate LineageMatches(t: Trace, e: Evidence) {
    && t.studyId == e.studyId && t.protocolDigest == e.protocolDigest && t.traceId == e.traceId
    && t.caseId == e.caseId && t.replicateId == e.replicateId && t.profileId == e.profileId
    && t.split == e.split && t.output == Some(e.output)
  }

  /** Why evidence has no trace: its execution failed, its output differs, or there is none. */
  function OrphanReason(n: Names, ts: seq<Trace>, e: Evidence): Reason {
    var partial := n.digest(TraceProfile(e.protocolDigest, e.traceId, e.profileId));
    if partial in FailedKeys(n, ts) then FailedExecution
    else if partial in ProfileKeys(n, ts) then OutputMismatch
    else NoMatchingTrace
  }

  // ----- the evidence loop

  /** The maps, keyed by execution, and the lists that the loop fills. */
  datatype Placement = Placement(
    scored: map<Text, Record>, declared: map<Text, Record>, rejected: map<Text, Rejected>,
    invalid: seq<Diagnostic>, orphan: seq<Diagnostic>, conflicting: seq<Conflict>,
    abstained: seq<Abstention>, missing: seq<Missing>)

  /** The first rejected row, in sort order, that matches each trace. */
  function FirstRejections(n: Names, ts: seq<Trace>, rejected: seq<Rejected>): map<Text, Rejected> {
    if rejected == [] then map[]
    else
      var front, x := FirstRejections(n, ts, rejected[..|rejected| - 1]), rejected[|rejected| - 1];
      var index := TraceIndex(n, ts);
      if x.joinKey in index && LineageMatches(index[x.joinKey], x.row.evidence)
         && ExecutionKey(n, index[x.joinKey]) !in front
      then front[ExecutionKey(n, index[x.joinKey]) := x]
      else front
  }

  function LineageConflict(r: Record): Conflict { Conflict(r.joinKey, [r.row.digest], [r.row], false) }

  /** Evidence that matches trace t: too early, a score, or a declared non-score. */
  function PlaceOn(n: Names, t: Trace, s: Placement, r: Record): Placement {
    var key, e := ExecutionKey(n, t), r.row.evidence;
    if e.producedAt < t.completedAt then
      s.(invalid := s.invalid + [RowDiagnostic(r.row, PredatesCompletion)],
         rejected := s.rejected[key := Rejected(r.row, r.joinKey, PredatesCompletion)])
    else if e.outcome.Scored? then s.(scored := s.scored[key := r])
    else
      var d := s.(declared := s.declared[key := r]);
      match e.outcome.kind
      case DeclaredAbstained => d.(abstained := d.abstained + [Abstention(key, r.row.digest, e.outcome.reasonCode)])
      case DeclaredMissing =>
        d.(missing := d.missing + [Missing(key, t.traceId, t.profileId, Some(e.outcome.reasonCode), Some(r.row.digest))])
      case DeclaredInvalid => d.(invalid := d.invalid + [RowDiagnostic(r.row, DeclaredReason(e.outcome.reasonCode))])
  }

  /** One iteration: orphan, lineage conflict, or evidence for a trace. */
  function Place(n: Names, ts: seq<Trace>, s: Placement, r: Record): Placement {
    var index, e := TraceIndex(n, ts), r.row.evidence;
    if r.joinKey !in index then s.(orphan := s.orphan + [RowDiagnostic(r.row, OrphanReason(n, ts, e))])
    else if !LineageMatches(index[r.joinKey], e) then s.(conflicting := s.conflicting + [LineageConflict(r)])
    else PlaceOn(n, index[r.joinKey], s, r)
  }

  function PlaceAll(n: Names, ts: seq<Trace>, s: Placement, rs: seq<Record>): Placement {
    if rs == [] then s else Place(n, ts, PlaceAll(n, ts, s, rs[..|rs| - 1]), rs[|rs| - 1])
  }

  function Start(n: Names, ts: seq<Trace>, invalid: seq<Diagnostic>, rejected: seq<Rejected>, conflicts: seq<Conflict>): Placement {
    Placement(map[], map[], FirstRejections(n, ts, SortCompact(n, rejected, RejectedKey)), invalid, [], conflicts, [], [])
  }

  method IndexTraces(n: Names, records: seq<Trace>) returns (index: map<Text, Trace>, profiles: set<Text>, failed: set<Text>)
    ensures index == TraceIndex(n, records) && profiles == ProfileKeys(n, records) && failed == FailedKeys(n, records)
  {
    index, profiles, failed := map[], {}, {};
    for i := 0 to |records|
      invariant index == TraceIndex(n, records[..i])
      invariant profiles == ProfileKeys(n, records[..i]) && failed == FailedKeys(n, records[..i])
    {
      var record := records[i];
      assert records[..i + 1][..i] == records[..i] && records[..i + 1] == records[..i] + [record];
      index := index[TraceKey(n, record) := record];
      profiles := profiles + {TraceProfileKey(n, record)};
      if !record.status.Success? { failed := failed + {TraceProfileKey(n, record)}; }
    }
    assert records[..|records|] == records;
  }

  method KeepFirstRejections(n: Names, records: seq<Trace>, index: map<Text, Trace>, rejected: seq<Rejected>)
      returns (first: map<Text, Rejected>)
    requires index == TraceIndex(n, records)
    ensures first == FirstRejections(n, records, rejected)
  {
    first := map[];
    for i := 0 to |rejected|
      invariant first == FirstRejections(n, records, rejected[..i])
    {
      var row := rejected[i];
      assert rejected[..i + 1][..i] == rejected[..i];
      if row.joinKey in index {
        var trace := index[row.joinKey];
        if LineageMatches(trace, row.row.evidence) && ExecutionKey(n, trace) !in first {
          first := first[ExecutionKey(n, trace) := row];
        }
      }
    }
    assert rejected[..|rejected|] == rejected;
  }

  /** The loop over evidence with one row per join key. */
  method PlaceEvidence(n: Names, records: seq<Trace>, start: Placement, sole: seq<Record>) returns (s: Placement)
    ensures s == PlaceAll(n, records, start, sole)
  {
    var index, profiles, failed := IndexTraces(n, records);
    s := start;
    for i := 0 to |sole|
      invariant s == PlaceAll(n, records, start, sole[..i])
    {
      var record := sole[i];
      var evidence := record.row.evidence;
      assert sole[..i + 1][..i] == sole[..i];
      if record.joinKey !in index {
        var partial := n.digest(TraceProfile(evidence.protocolDigest, evidence.traceId, evidence.profileId));
        var reason := if partial in failed then FailedExecution else if partial in profiles then OutputMismatch else NoMatchingTrace;
        s := s.(orphan := s.orphan + [RowDiagnostic(record.row, reason)]);
        continue;
      }
      var trace := index[record.joinKey];
      var key := ExecutionKey(n, trace);
      if !LineageMatches(trace, evidence) {
        s := s.(conflicting := s.conflicting + [LineageConflict(record)]);
        continue;
      }
      if evidence.producedAt < trace.completedAt {
        s := s.(invalid := s.invalid + [RowDiagnostic(record.row, PredatesCompletion)]);
        s := s.(rejected := s.rejected[key := Rejected(record.row, record.joinKey, PredatesCompletion)]);
        continue;
      }
      if evidence.outcome.Scored? {
        s := s.(scored := s.scored[key := record]);
        continue;
      }
      s := s.(declared := s.declared[key := record]);
      match evidence.outcome.kind {
        case DeclaredAbstained =>
          s := s.(abstained := s.abstained + [Abstention(key, record.row.digest, evidence.outcome.reasonCode)]);
        case DeclaredMissing =>
          s := s.(missing := s.missing
            + [Missing(key, trace.traceId, trace.profileId, Some(evidence.outcome.reasonCode), Some(record.row.digest))]);
        case DeclaredInvalid =>
          s := s.(invalid := s.invalid + [RowDiagnostic(record.row, DeclaredReason(evidence.outcome.reasonCode))]);
      }
    }
    assert sole[..|sole|] == sole;
  }

  // ----- executions

  function ConflictKeys(s: Placement): set<Text> { set c | c in s.conflicting :: c.joinKey }

  function OutcomeOf(n: Names, s: Placement, t: Trace): Outcome {
    var key := ExecutionKey(n, t);
    if t.ambiguous then AmbiguousExecution
    else if !t.status.Success? then FailureZero
    else if key in s.scored then ScoredOutcome(s.scored[key])
    else if key in s.declared then DeclaredOutcome(s.declared[key])
    else if key in s.rejected then RejectedOutcome(s.rejected[key])
    else if TraceKey(n, t) in ConflictKeys(s) then ConflictingEvidence
    else NoEvidence
  }

  function ExecutionOfTrace(n: Names, p: Protocol, s: Placement, t: Trace): Execution {
    Execution(ExecutionKey(n, t), t, if TraceAdmissible(p, t) then SplitBucket(p, t) else None, OutcomeOf(n, s, t))
  }

  function MissingOf(n: Names, s: Placement, t: Trace): seq<Missing> {
    if OutcomeOf(n, s, t) == NoEvidence then [Missing(ExecutionKey(n, t), t.traceId, t.profileId, None, None)] else []
  }

  function MissingFrom(n: Names, s: Placement): Trace -> seq<Missing> { (t: Trace) => MissingOf(n, s, t) }
  function ExecutionsBy(n: Names, p: Protocol, s: Placement): Trace -> seq<Execution> { (t: Trace) => [ExecutionOfTrace(n, p, s, t)] }

  /** Lexicographic: case, replicate, profile, execution key. */
  function ExecutionLe(): (Execution, Execution) -> bool {
    (a: Execution, b: Execution) =>
      var c, r, q := Compare(a.trace.caseId, b.trace.caseId), Compare(a.trace.replicateId, b.trace.replicateId),
                     Compare(a.trace.profileId, b.trace.profileId);
      (if c != 0 then c else if r != 0 then r else if q != 0 then q else Compare(a.key, b.key)) <= 0
  }

  function Executions(n: Names, p: Protocol, s: Placement, ts: seq<Trace>): seq<Execution> {
    Sort(Gather(ts, ExecutionsBy(n, p, s)), ExecutionLe())
  }

  method BuildExecutions(n: Names, p: Protocol, s: Placement, records: seq<Trace>)
      returns (executions: seq<Execution>, missing: seq<Missing>)
    ensures executions == Executions(n, p, s, records)
    ensures missing == s.missing + Gather(records, MissingFrom(n, s))
  {
    var conflicting := set c | c in s.conflicting :: c.joinKey;
    executions, missing := [], s.missing;
    for i := 0 to |records|
      invariant executions == Gather(records[..i], ExecutionsBy(n, p, s))
      invariant missing == s.missing + Gather(records[..i], MissingFrom(n, s))
    {
      var record := records[i];
      var key := ExecutionKey(n, record);
      GatherStep(records, i, ExecutionsBy(n, p, s));
      GatherStep(records, i, MissingFrom(n, s));
      var outcome: Outcome;
      if record.ambiguous {
        outcome := AmbiguousExecution;
      } else if !record.status.Success? {
        outcome := FailureZero;
      } else if key in s.scored {
        outcome := ScoredOutcome(s.scored[key]);
      } else if key in s.declared {
        outcome := DeclaredOutcome(s.declared[key]);
      } else if key in s.rejected {
        outcome := RejectedOutcome(s.rejected[key]);
      } else if TraceKey(n, record) in conflicting {
        outcome := ConflictingEvidence;
      } else {
        outcome := NoEvidence;
        missing := missing + [Missing(key, record.traceId, record.profileId, None, None)];
      }
      var bucket := if TraceAdmissible(p, record) then SplitBucket(p, record) else None;
      executions := executions + [Execution(key, record, bucket, outcome)];
    }
    GatherWhole(records, ExecutionsBy(n, p, s));
    GatherWhole(records, MissingFrom(n, s));
    executions := Sort(executions, ExecutionLe());
  }

  // ----- pairs

  function RequiredProfiles(p: Protocol): seq<Text> { SortStrings([p.championProfileId] + p.candidateProfileIds) }

  function AbsentFrom(g: seq<Trace>): Text -> seq<Text> {
    id => if exists t :: t in g && t.profileId == id then [] else [id]
  }

  function AbsentProfiles(p: Protocol, g: seq<Trace>): seq<Text> { Gather(RequiredProfiles(p), AbsentFrom(g)) }

  function MissingProfileOf(p: Protocol, g: seq<Trace>): seq<MissingProfile> {
    if g != [] && AbsentProfiles(p, g) != [] then [MissingProfile(g[0].caseId, g[0].replicateId, AbsentProfiles(p, g))] else []
  }

  function PairOfGroup(n: Names, p: Protocol, g: seq<Trace>): seq<Pair> {
    if g != [] && AbsentProfiles(p, g) == [] then
      [Pair(PairKey(n, g[0]), g[0].caseId, g[0].replicateId, g[0].groupId, g[0].split, g[0].weight, SortStrings(g[0].slices),
            RequiredProfiles(p), SortStrings(Map(ExecutionBy(n), g)))]
    else []
  }

  function PairKeys(n: Names, ts: seq<Trace>): seq<Text> { SortStrings(Keys(ts, PairBy(n))) }
  function PairsBy(n: Names, p: Protocol, ts: seq<Trace>): Text -> seq<Pair> { k => PairOfGroup(n, p, Group(ts, PairBy(n), k)) }
  function MissingProfilesBy(n: Names, p: Protocol, ts: seq<Trace>): Text -> seq<MissingProfile> {
    k => MissingProfileOf(p, Group(ts, PairBy(n), k))
  }
  function FirstOfPair(n: Names, ts: seq<Trace>): Text -> seq<Trace> { k => First(Group(ts, PairBy(n), k)) }
  function FirstOfCase(ts: seq<Trace>): Text -> seq<Trace> { k => First(Group(ts, CaseKey, k)) }

  /** One trace per case replicate, and one per case. */
  function LogicalUnits(n: Names, ts: seq<Trace>): seq<Trace> { Gather(PairKeys(n, ts), FirstOfPair(n, ts)) }
  function CaseUnits(n: Names, ts: seq<Trace>): seq<Trace> {
    var units := LogicalUnits(n, ts);
    Gather(Keys(units, CaseKey), FirstOfCase(units))
  }

  function Accepted(o: Outcome): bool { o.ScoredOutcome? || o.DeclaredOutcome? }
  function AcceptedExecution(e: Execution): seq<Execution> { if Accepted(e.outcome) then [e] else [] }
  function ScoredExecution(e: Execution): seq<Execution> { if e.outcome.ScoredOutcome? then [e] else [] }

  // ----- the join

  function PlacedFor(n: Names, ts: seq<Trace>, a: Admission): Placement {
    var unique := DistinctEvidence(Stable(a));
    PlaceAll(n, ts, Start(n, ts, InvalidAfterDrift(a), RejectedAfterDrift(a), ClashingEvidence(unique)),
             Sort(SoleEvidence(unique), ByKey(RecordDigest)))
  }

  function SourceBy(n: Names): Receipt -> Text { (r: Receipt) => SourceDigest(n, r) }

  function DatasetOf(n: Names, p: Protocol, inputs: seq<Trace>, rs: seq<Receipt>): Dataset {
    var ts := TraceRecords(n, inputs);
    var a := Admit(n, p, rs);
    var s := PlacedFor(n, ts, a);
    var executions := Executions(n, p, s, ts);
    var keys := PairKeys(n, ts);
    var pairs := Gather(keys, PairsBy(n, p, ts));
    var assessments := SortStrings(Distinct(a.assessmentContexts));
    Dataset(
      if |assessments| == 1 then Some(assessments[0]) else None,
      n.digest(TraceSet(SortStrings(Map(DigestKey(n), inputs)))),
      n.digest(EvaluatorSet(SortStrings(Map(SourceBy(n), rs)))),
      RequiredProfiles(p), Contexts(a), executions, pairs,
      Counts(|inputs|, |ts|, |rs|, |Gather(executions, AcceptedExecution)|, |Gather(executions, ScoredExecution)|, |pairs|,
             |CaseUnits(n, ts)|, |LogicalUnits(n, ts)|, |Keys(CaseUnits(n, ts), GroupIdKey)|, Mass(CaseUnits(n, ts)),
             SplitTallies(LogicalUnits(n, ts), CaseUnits(n, ts)), SliceTallies(LogicalUnits(n, ts))),
      DiagnosticsOf(n, p, inputs, ts, a, s), BlockingOf(DiagnosticsOf(n, p, inputs, ts, a, s)))
  }

  function DiagnosticsOf(n: Names, p: Protocol, inputs: seq<Trace>, ts: seq<Trace>, a: Admission, s: Placement): Diagnostics {
    Diagnostics(
      SortCompact(n, s.missing + Gather(ts, MissingFrom(n, s)), MissingKey), SortCompact(n, s.invalid, DiagnosticKey),
      SortCompact(n, s.abstained, AbstentionKey), SortCompact(n, s.orphan, DiagnosticKey),
      SortCompact(n, RepeatedEvidence(Stable(a)), DuplicateKey), SortCompact(n, s.conflicting, ConflictKey),
      SortCompact(n, RepeatedTraces(n, inputs), DuplicateTraceKey), SortCompact(n, ClashingTraces(n, inputs), ConflictTraceKey),
      SortCompact(n, Gather(PairKeys(n, ts), MissingProfilesBy(n, p, ts)), MissingProfileKey))
  }

  function BlockWhen<T>(values: seq<T>, reason: Blocking): set<Blocking> { if |values| > 0 then {reason} else {} }

  /** blockWhenPresent, once for every list. */
  function BlockingOf(d: Diagnostics): set<Blocking> {
    BlockWhen(d.missing, MissingBlocks) + BlockWhen(d.invalid, InvalidBlocks) + BlockWhen(d.abstained, AbstainedBlocks)
    + BlockWhen(d.orphan, OrphanBlocks) + BlockWhen(d.duplicate, DuplicateBlocks) + BlockWhen(d.conflicting, ConflictBlocks)
    + BlockWhen(d.duplicateTraces, DuplicateTraceBlocks) + BlockWhen(d.conflictingTraces, ConflictTraceBlocks)
    + BlockWhen(d.missingProfiles, MissingProfileBlocks)
  }

  ghost function Join(n: Names, p: Protocol, inputs: seq<Trace>, rs: seq<Receipt>): Result<Dataset, JoinError> {
    if exists t :: t in inputs && !TraceAdmissible(p, t) then Err(TraceRejected)
    else if !MetadataOk(n, TraceRecords(n, inputs)) then Err(MetadataConflict)
    else Ok(DatasetOf(n, p, inputs, rs))
  }

  method BuildPairs(n: Names, p: Protocol, records: seq<Trace>) returns (pairs: seq<Pair>, missing: seq<MissingProfile>)
    ensures pairs == Gather(PairKeys(n, records), PairsBy(n, p, records))
    ensures missing == Gather(PairKeys(n, records), MissingProfilesBy(n, p, records))
  {
    pairs, missing := [], [];
    var order, groups := GroupBy(records, PairBy(n));
    var keys := SortStrings(order);
    SortPermutes(order, ByKey(Itself));
    SameMembers(keys, order);
    var required := RequiredProfiles(p);
    for i := 0 to |keys|
      invariant pairs == Gather(keys[..i], PairsBy(n, p, records))
      invariant missing == Gather(keys[..i], MissingProfilesBy(n, p, records))
    {
      assert keys[i] in order;
      var group := groups[keys[i]];
      GroupMembers(records, PairBy(n), keys[i]);
      GatherStep(keys, i, PairsBy(n, p, records));
      GatherStep(keys, i, MissingProfilesBy(n, p, records));
      var absent := AbsentProfiles(p, group);
      if |absent| > 0 {
        missing := missing + [MissingProfile(group[0].caseId, group[0].replicateId, absent)];
        continue;
      }
      pairs := pairs + PairOfGroup(n, p, group);
    }
    GatherWhole(keys, PairsBy(n, p, records));
    GatherWhole(keys, MissingProfilesBy(n, p, records));
  }

  method NormalizeTraces(p: Protocol, inputs: seq<Trace>) returns (ok: bool)
    ensures ok <==> forall t :: t in inputs ==> TraceAdmissible(p, t)
  {
    for i := 0 to |inputs|
      invariant forall k :: 0 <= k < i ==> TraceAdmissible(p, inputs[k])
    {
      if !TraceAdmissible(p, inputs[i]) {
        assert inputs[i] in inputs;
        return false;
      }
    }
    return true;
  }

  /** From the admitted receipts to the placed evidence. */
  method PlaceReceipts(n: Names, records: seq<Trace>, a: Admission) returns (s: Placement, duplicates: seq<Duplicate>)
    ensures s == PlacedFor(n, records, a) && duplicates == RepeatedEvidence(Stable(a))
  {
    var invalid, rejected, stable := RejectDrift(a);
    var unique, conflicts, sole;
    unique, duplicates := RetainDistinctEvidence(stable);
    sole, conflicts := RetainSoleEvidence(unique);
    var index, _, _ := IndexTraces(n, records);
    var first := KeepFirstRejections(n, records, index, SortCompact(n, rejected, RejectedKey));
    s := PlaceEvidence(n, records, Placement(map[], map[], first, invalid, [], conflicts, [], []), Sort(sole, ByKey(RecordDigest)));
  }

  /** joinAssessmentEvidence */
  method JoinAssessmentEvidence(n: Names, p: Protocol, traceInputs: seq<Trace>, receipts: seq<Receipt>)
      returns (r: Result<Dataset, JoinError>)
    ensures r == Join(n, p, traceInputs, receipts)
  {
    hide TraceRecords, PlacedFor, Executions, MetadataOk, SortCompact, CaseUnits, LogicalUnits, PairKeys, TraceAdmissible, Mass, SortStrings, Contexts;
    var admissible := NormalizeTraces(p, traceInputs);
    if !admissible { return Err(TraceRejected); }
    var records, duplicateTraces, conflictingTraces := RetainUniqueTraceRecords(n, traceInputs);
    var consistent := ValidateTraceMetadata(n, records);
    if !consistent { return Err(MetadataConflict); }
    var a := AdmitReceipts(n, p, receipts);
    var s, duplicates := PlaceReceipts(n, records, a);
    var executions, missing := BuildExecutions(n, p, s, records);
    var pairs, missingProfiles := BuildPairs(n, p, records);
    var assessments := SortStrings(Distinct(a.assessmentContexts));
    var logicalUnits, caseUnits := LogicalUnits(n, records), CaseUnits(n, records);
    var splits := TallySplits(logicalUnits, caseUnits);
    var slices := TallySlices(logicalUnits);
    var diagnostics := Diagnostics(
      SortCompact(n, missing, MissingKey), SortCompact(n, s.invalid, DiagnosticKey),
      SortCompact(n, s.abstained, AbstentionKey), SortCompact(n, s.orphan, DiagnosticKey),
      SortCompact(n, duplicates, DuplicateKey), SortCompact(n, s.conflicting, ConflictKey),
      SortCompact(n, duplicateTraces, DuplicateTraceKey), SortCompact(n, conflictingTraces, ConflictTraceKey),
      SortCompact(n, missingProfiles, MissingProfileKey));
    return Ok(Dataset(
      if |assessments| == 1 then Some(assessments[0]) else None,
      n.digest(TraceSet(SortStrings(Map(DigestKey(n), traceInputs)))),
      n.digest(EvaluatorSet(SortStrings(Map(SourceBy(n), receipts)))),
      RequiredProfiles(p), Contexts(a), executions, pairs,
      Counts(|traceInputs|, |records|, |receipts|, |Gather(executions, AcceptedExecution)|,
             |Gather(executions, ScoredExecution)|, |pairs|, |caseUnits|, |logicalUnits|,
             |Keys(caseUnits, GroupIdKey)|, Mass(caseUnits), splits, slices),
      diagnostics, BlockingOf(diagnostics)));
  }
}
