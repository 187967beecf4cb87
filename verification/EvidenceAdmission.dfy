/** Receipt admission, context drift, duplicate and conflicting evidence. */
module EvidenceAdmission {
  import opened CodeUnits
  import opened Wrappers
  import opened Sorting
  import opened Grouping
  import opened EvidenceModel
  import opened EvidenceJoin

  function ProvenanceOf(r: Receipt): Provenance {
    if r.Inauthentic? then NoProvenance else Verified(r.status, r.trusted, r.reason, r.keyId, r.context)
  }

  function RowOf(r: Receipt): Row
    requires r.Authentic?
  {
    Row(r.evidence, r.evidenceDigest, ProvenanceOf(r))
  }

  /** Why an authentic receipt is not admitted; the checks run in this order. */
  function Rejection(p: Protocol, r: Receipt): Option<Reason>
    requires r.Authentic?
  {
    var e := r.evidence;
    if r.keyId != e.keyId || r.trusted != (r.status == Trusted) then Some(IntegrityConflict)
    else if !r.trusted then Some(VerificationStatus(r.status))
    else if e.keyId !in p.requiredTrustedKeyIds then Some(KeyNotPinned)
    else if e.studyId != p.studyId || e.protocolDigest != p.digest || e.evaluator != p.evaluator then Some(EvaluatorDrift)
    else None
  }

  predicate Admitted(p: Protocol, r: Receipt) { r.Authentic? && Rejection(p, r).None? }

  function RecordOf(n: Names, r: Receipt): Record
    requires r.Authentic?
  {
    Record(RowOf(r), EvidenceKey(n, r.evidence), n.digest(ContextOf(r.context)))
  }

  function RowDiagnostic(row: Row, reason: Reason): Diagnostic {
    Diagnostic(Some(row.evidence), Some(row.digest), row.provenance, reason)
  }

  function InvalidReceipt(p: Protocol, r: Receipt): seq<Diagnostic> {
    if r.Inauthentic? then [Diagnostic(None, None, NoProvenance, InauthenticReceipt)]
    else if Rejection(p, r).Some? then [RowDiagnostic(RowOf(r), Rejection(p, r).value)]
    else []
  }

  function RejectedReceipt(n: Names, p: Protocol, r: Receipt): seq<Rejected> {
    if r.Authentic? && Rejection(p, r).Some? then [Rejected(RowOf(r), EvidenceKey(n, r.evidence), Rejection(p, r).value)] else []
  }

  function InvalidFrom(p: Protocol): Receipt -> seq<Diagnostic> { (r: Receipt) => InvalidReceipt(p, r) }
  function RejectedFrom(n: Names, p: Protocol): Receipt -> seq<Rejected> { (r: Receipt) => RejectedReceipt(n, p, r) }
  function AdmittedFrom(n: Names, p: Protocol): Receipt -> seq<Record> { (r: Receipt) => if Admitted(p, r) then [RecordOf(n, r)] else [] }
  function ContextFrom(n: Names): Receipt -> seq<Text> { (r: Receipt) => if r.Authentic? then [n.digest(ContextOf(r.context))] else [] }
  function AssessmentContextFrom(r: Receipt): seq<Text> { if r.Authentic? then [r.context.assessmentContextDigest] else [] }

  /** The lists the receipt loop fills. */
  datatype Admission = Admission(
    invalid: seq<Diagnostic>, rejected: seq<Rejected>, admitted: seq<Record>,
    contexts: seq<Text>, assessmentContexts: seq<Text>)

  function Admit(n: Names, p: Protocol, rs: seq<Receipt>): Admission {
    Admission(
      Gather(rs, InvalidFrom(p)), Gather(rs, RejectedFrom(n, p)), Gather(rs, AdmittedFrom(n, p)),
      Gather(rs, ContextFrom(n)), Gather(rs, AssessmentContextFrom))
  }

  /** The receipt loop. */
  method AdmitReceipts(n: Names, p: Protocol, receipts: seq<Receipt>) returns (a: Admission)
    ensures a == Admit(n, p, receipts)
  {
    var invalid: seq<Diagnostic>, rejected: seq<Rejected>, admitted: seq<Record> := [], [], [];
    var contexts: seq<Text>, assessments: seq<Text> := [], [];
    hide Rejection;
    for i := 0 to |receipts|
      invariant Admission(invalid, rejected, admitted, contexts, assessments) == Admit(n, p, receipts[..i])
    {
      var input := receipts[i];
      AdmitStep(n, p, receipts, i);
      if input.Inauthentic? {
        invalid := invalid + [Diagnostic(None, None, NoProvenance, InauthenticReceipt)];
        continue;
      }
      assessments := assessments + [input.context.assessmentContextDigest];
      contexts := contexts + [n.digest(ContextOf(input.context))];
      var rejection := Rejection(p, input);
      if rejection.Some? {
        invalid := invalid + [RowDiagnostic(RowOf(input), rejection.value)];
        rejected := rejected + [Rejected(RowOf(input), EvidenceKey(n, input.evidence), rejection.value)];
        continue;
      }
      admitted := admitted + [RecordOf(n, input)];
    }
    assert receipts[..|receipts|] == receipts;
    a := Admission(invalid, rejected, admitted, contexts, assessments);
  }

  lemma AdmitStep(n: Names, p: Protocol, rs: seq<Receipt>, i: nat)
    requires i < |rs|
    ensures var a, b, r := Admit(n, p, rs[..i]), Admit(n, p, rs[..i + 1]), rs[i];
            b == Admission(
                   a.invalid + InvalidReceipt(p, r), a.rejected + RejectedReceipt(n, p, r), a.admitted + AdmittedFrom(n, p)(r),
                   a.contexts + ContextFrom(n)(r), a.assessmentContexts + AssessmentContextFrom(r))
  {
    GatherStep(rs, i, InvalidFrom(p));
    GatherStep(rs, i, RejectedFrom(n, p));
    GatherStep(rs, i, AdmittedFrom(n, p));
    GatherStep(rs, i, ContextFrom(n));
    GatherStep(rs, i, AssessmentContextFrom);
  }

  // ----- one verification context

  function Contexts(a: Admission): seq<Text> { SortStrings(Distinct(a.contexts)) }

  predicate Drifts(a: Admission) { |Contexts(a)| > 1 }

  function DriftDiagnostic(r: Record): seq<Diagnostic> { [RowDiagnostic(r.row, ContextDrift)] }
  function DriftRejection(r: Record): seq<Rejected> { [Rejected(r.row, r.joinKey, ContextDrift)] }

  function Stable(a: Admission): seq<Record> { if Drifts(a) then [] else a.admitted }

  function InvalidAfterDrift(a: Admission): seq<Diagnostic> {
    if Drifts(a) then a.invalid + Gather(a.admitted, DriftDiagnostic) else a.invalid
  }

  function RejectedAfterDrift(a: Admission): seq<Rejected> {
    if Drifts(a) then a.rejected + Gather(a.admitted, DriftRejection) else a.rejected
  }

  /** Two verification contexts reject every admitted receipt. */
  method RejectDrift(a: Admission) returns (invalid: seq<Diagnostic>, rejected: seq<Rejected>, stable: seq<Record>)
    ensures invalid == InvalidAfterDrift(a) && rejected == RejectedAfterDrift(a) && stable == Stable(a)
  {
    invalid, rejected, stable := a.invalid, a.rejected, a.admitted;
    if |Contexts(a)| > 1 {
      for i := 0 to |a.admitted|
        invariant invalid == a.invalid + Gather(a.admitted[..i], DriftDiagnostic)
        invariant rejected == a.rejected + Gather(a.admitted[..i], DriftRejection)
      {
        var record := a.admitted[i];
        GatherStep(a.admitted, i, DriftDiagnostic);
        GatherStep(a.admitted, i, DriftRejection);
        invalid := invalid + [RowDiagnostic(record.row, ContextDrift)];
        rejected := rejected + [Rejected(record.row, record.joinKey, ContextDrift)];
      }
      GatherWhole(a.admitted, DriftDiagnostic);
      GatherWhole(a.admitted, DriftRejection);
      stable := [];
    }
  }

  // ----- duplicates and conflicts

  function RecordDigest(r: Record): Text { r.row.digest }
  function RecordKey(r: Record): Text { r.joinKey }
  function RowOfRecord(r: Record): Row { r.row }

  function First<T>(g: seq<T>): seq<T> { if g == [] then [] else [g[0]] }

  function RepeatedRow(digest: Text, g: seq<Record>): seq<Duplicate> {
    if |g| > 1 then [Duplicate(g[0].joinKey, digest, |g|, g[0].row)] else []
  }

  function FirstByDigest(rs: seq<Record>): Text -> seq<Record> { d => First(Group(rs, RecordDigest, d)) }
  function RepeatedByDigest(rs: seq<Record>): Text -> seq<Duplicate> { d => RepeatedRow(d, Group(rs, RecordDigest, d)) }

  function DistinctEvidence(rs: seq<Record>): seq<Record> { Gather(Keys(rs, RecordDigest), FirstByDigest(rs)) }
  function RepeatedEvidence(rs: seq<Record>): seq<Duplicate> { Gather(Keys(rs, RecordDigest), RepeatedByDigest(rs)) }

  function SortRows(rows: seq<Row>): seq<Row> { Sort(rows, ByKey(DigestOf)) }

  function ClashingRows(key: Text, g: seq<Record>): seq<Conflict> {
    if |g| > 1 then [Conflict(key, SortStrings(Map(RecordDigest, g)), SortRows(Map(RowOfRecord, g)), true)] else []
  }

  function OnlyByKey(rs: seq<Record>): Text -> seq<Record> { k => Only(Group(rs, RecordKey, k)) }
  function ClashByKey(rs: seq<Record>): Text -> seq<Conflict> { k => ClashingRows(k, Group(rs, RecordKey, k)) }

  function SoleEvidence(rs: seq<Record>): seq<Record> { Gather(Keys(rs, RecordKey), OnlyByKey(rs)) }
  function ClashingEvidence(rs: seq<Record>): seq<Conflict> { Gather(Keys(rs, RecordKey), ClashByKey(rs)) }

  method RetainDistinctEvidence(stable: seq<Record>) returns (unique: seq<Record>, duplicates: seq<Duplicate>)
    ensures unique == DistinctEvidence(stable) && duplicates == RepeatedEvidence(stable)
  {
    hide Group, Keys;
    unique, duplicates := [], [];
    var digests, groups := GroupBy(stable, RecordDigest);
    for i := 0 to |digests|
      invariant unique == Gather(digests[..i], FirstByDigest(stable))
      invariant duplicates == Gather(digests[..i], RepeatedByDigest(stable))
    {
      var digest := digests[i];
      var records := groups[digest];
      GroupMembers(stable, RecordDigest, digest);
      GatherStep(digests, i, FirstByDigest(stable));
      GatherStep(digests, i, RepeatedByDigest(stable));
      if |records| > 1 {
        duplicates := duplicates + [Duplicate(records[0].joinKey, digest, |records|, records[0].row)];
        unique := unique + [records[0]];
        continue;
      }
      unique := unique + [records[0]];
    }
    GatherWhole(digests, FirstByDigest(stable));
    GatherWhole(digests, RepeatedByDigest(stable));
  }

  method RetainSoleEvidence(unique: seq<Record>) returns (sole: seq<Record>, conflicts: seq<Conflict>)
    ensures sole == SoleEvidence(unique) && conflicts == ClashingEvidence(unique)
  {
    hide SortStrings, SortRows, Group, Keys;
    sole, conflicts := [], [];
    var keys, groups := GroupBy(unique, RecordKey);
    for i := 0 to |keys|
      invariant sole == Gather(keys[..i], OnlyByKey(unique))
      invariant conflicts == Gather(keys[..i], ClashByKey(unique))
    {
      var records := groups[keys[i]];
      GroupMembers(unique, RecordKey, keys[i]);
      GatherStep(keys, i, OnlyByKey(unique));
      GatherStep(keys, i, ClashByKey(unique));
      if |records| > 1 {
        conflicts := conflicts
          + [Conflict(keys[i], SortStrings(Map(RecordDigest, records)), SortRows(Map(RowOfRecord, records)), true)];
        continue;
      }
      sole := sole + [records[0]];
    }
    GatherWhole(keys, OnlyByKey(unique));
    GatherWhole(keys, ClashByKey(unique));
  }
}
