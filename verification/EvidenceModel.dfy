/** Traces, evaluator receipts and the dataset the evidence join builds from them. */
module EvidenceModel {
  import opened CodeUnits
  import opened Numbers
  import opened Wrappers
  import opened Sorting
  import opened Grouping

  datatype Split = Dev | Holdout | Online
  datatype Status = Success | Failure | Aborted

  /** Keyed digest of a terminal output. */
  datatype OutputId = OutputId(algorithm: Text, keyId: Text, value: Text)

  datatype AttemptCost = MeasuredCost(amount: Number) | ModeledCost(amount: Number) | ReportedCost(amount: Number) | NoCost

  const MAX_SLICES: nat := 64

  /** One execution as observed; attempts are reduced to their terminal status, ambiguity, time span and costs. */
  datatype Trace = Trace(
    studyId: Text, protocolDigest: Text, traceId: Text, caseId: Text, replicateId: Text, groupId: Text,
    profileId: Text, profileDigest: Text, split: Split, output: Option<OutputId>,
    policyDigest: Option<Text>, windowId: Option<Text>, windowMembership: Option<Text>,
    weight: Number, slices: seq<Text>, workload: Text, routeSignal: Text, routeValue: Option<Number>,
    status: Status, ambiguous: bool, startedAt: int, firstToken: Option<int>, completedAt: int, costs: seq<AttemptCost>)

  /** What parsing a trace envelope guarantees. */
  predicate WellFormedTrace(t: Trace) {
    && t.caseId != [] && t.groupId != [] && t.weight > 0.0 && NoDuplicates(t.slices) && |t.slices| <= MAX_SLICES
    && t.startedAt <= t.completedAt && (t.firstToken.Some? ==> t.startedAt <= t.firstToken.value <= t.completedAt)
    && t.costs != [] && forall i :: 0 <= i < |t.costs| ==> t.costs[i].NoCost? || t.costs[i].amount >= 0.0
  }

  datatype Declared = DeclaredAbstained | DeclaredMissing | DeclaredInvalid
  datatype Verdict = Scored(score: Number, range: (Number, Number)) | NotScored(kind: Declared, reasonCode: Text)

  datatype Evaluator = Evaluator(
    evaluatorId: Text, rubricVersion: Text, calibrationDigest: Text,
    producerKind: Text, producerId: Text, producerVersion: Text)

  datatype Evidence = Evidence(
    studyId: Text, protocolDigest: Text, traceId: Text, caseId: Text, replicateId: Text, profileId: Text,
    split: Split, output: OutputId, keyId: Text, evaluator: Evaluator, producedAt: int, outcome: Verdict)

  /** What the local verifier concluded about an evidence row. */
  datatype TrustStatus = Trusted | Untrusted(status: Text)

  datatype Context = Context(
    assessedAt: Text, assessmentContextDigest: Text, trustPolicyDigest: Text, revocationDigest: Text)

  datatype Receipt =
    | Inauthentic
    | Authentic(
        evidence: Evidence, evidenceDigest: Text, status: TrustStatus, trusted: bool, keyId: Text,
        reason: Text, context: Context)

  type byte = b: int | 0 <= b < 256
  type pos = k: int | k > 0 witness 1

  /** The hash of a group and the seed, and the checks on attempts and route signals, are parameters. */
  datatype Protocol = Protocol(
    studyId: Text, digest: Text, createdAt: int, expiresAt: int,
    championProfileId: Text, candidateProfileIds: seq<Text>, profileDigests: map<Text, Text>,
    evaluator: Evaluator, requiredTrustedKeyIds: seq<Text>,
    bucketCount: pos, developmentBuckets: seq<nat>, holdoutBuckets: seq<nat>, groupDigest: Text -> seq<byte>,
    attemptsConform: Trace -> bool)

  // ----- identities

  /** What is hashed, by domain. */
  datatype Identity =
    | TraceBody(trace: Trace)
    | EvidenceBody(evidence: Evidence)
    | TraceJoin(protocolDigest: Text, traceId: Text, profileId: Text, output: Option<OutputId>)
    | LogicalProfile(protocolDigest: Text, caseId: Text, replicateId: Text, profileId: Text)
    | PairOf(protocolDigest: Text, caseId: Text, replicateId: Text)
    | TraceProfile(protocolDigest: Text, traceId: Text, profileId: Text)
    | ExecutionOf(traceDigest: Text, joinKey: Text)
    | TraceIdOf(traceId: Text)
    | ContextOf(context: Context)
    | InauthenticSource
    | AuthenticSource(evidenceDigest: Text, status: TrustStatus, trusted: bool, context: Context, keyId: Text)
    | TraceSet(digests: seq<Text>)
    | EvaluatorSet(digests: seq<Text>)

  datatype Provenance =
    | NoProvenance
    | Verified(status: TrustStatus, trusted: bool, reason: Text, keyId: Text, context: Context)

  datatype Reason =
    | InauthenticReceipt | IntegrityConflict | VerificationStatus(status: TrustStatus) | KeyNotPinned | EvaluatorDrift
    | ContextDrift | PredatesCompletion | DeclaredReason(reasonCode: Text)
    | FailedExecution | OutputMismatch | NoMatchingTrace

  /** The fields each diagnostic list is sorted by. */
  datatype CompactKey =
    | RejectedBy(joinKey: Text, digest: Text, reason: Reason, provenance: Provenance)
    | DiagnosticBy(evidenceDigest: Option<Text>, trace: Option<Text>, profile: Option<Text>, why: Reason, verified: Provenance)
    | MissingBy(executionKey: Text, traceId: Text, profileId: Text, declared: Option<Text>, missingDigest: Option<Text>)
    | AbstainedBy(execution: Text, abstainedDigest: Text, reasonCode: Text)
    | DuplicateBy(duplicateKey: Text, duplicateDigest: Text, occurrences: nat, row: Provenance)
    | ConflictBy(conflictKey: Text, digests: seq<Text>, multiple: bool, rows: seq<(Text, Provenance)>)
    | DuplicateTraceBy(traceDigest: Text, duplicateId: Text, times: nat)
    | ConflictTraceBy(authoritativeKey: Text, traceDigests: seq<Text>, sameId: bool)
    | MissingProfileBy(caseId: Text, replicateId: Text, missing: seq<Text>)

  /** Domain-separated hashing, canonical JSON, and the one reason text the verifier gives to trusted evidence. */
  datatype Names = Names(digest: Identity -> Text, canonical: CompactKey -> Text, trustedReason: Text)

  ghost predicate CollisionFree(n: Names) {
    && (forall a, b :: n.digest(a) == n.digest(b) ==> a == b)
    && (forall a, b :: n.canonical(a) == n.canonical(b) ==> a == b)
  }

  function TraceDigest(n: Names, t: Trace): Text { n.digest(TraceBody(t)) }
  function TraceKey(n: Names, t: Trace): Text { n.digest(TraceJoin(t.protocolDigest, t.traceId, t.profileId, t.output)) }
  function LogicalKey(n: Names, t: Trace): Text { n.digest(LogicalProfile(t.protocolDigest, t.caseId, t.replicateId, t.profileId)) }
  function PairKey(n: Names, t: Trace): Text { n.digest(PairOf(t.protocolDigest, t.caseId, t.replicateId)) }
  function ExecutionKey(n: Names, t: Trace): Text { n.digest(ExecutionOf(TraceDigest(n, t), TraceKey(n, t))) }
  function TraceProfileKey(n: Names, t: Trace): Text { n.digest(TraceProfile(t.protocolDigest, t.traceId, t.profileId)) }
  function EvidenceKey(n: Names, e: Evidence): Text { n.digest(TraceJoin(e.protocolDigest, e.traceId, e.profileId, Some(e.output))) }

  function SourceDigest(n: Names, r: Receipt): Text {
    if r.Inauthentic? then n.digest(InauthenticSource)
    else n.digest(AuthenticSource(r.evidenceDigest, r.status, r.trusted, r.context, r.keyId))
  }

  // ----- sorted text

  function SortStrings(ts: seq<Text>): seq<Text> { Sort(ts, ByKey(Itself)) }
  function Distinct(ts: seq<Text>): seq<Text> { Keys(ts, Itself) }

  lemma SortStringsPermutes(xs: seq<Text>, ys: seq<Text>)
    requires multiset(xs) == multiset(ys)
    ensures SortStrings(xs) == SortStrings(ys)
  {
    ByKeyPreorder(Itself);
    ByKeyDistinguishes(Itself, xs);
    SortForgetsOrder(xs, ys, ByKey(Itself));
  }

  // ----- diagnostics

  datatype Row = Row(evidence: Evidence, digest: Text, provenance: Provenance)
  datatype Record = Record(row: Row, joinKey: Text, contextIdentity: Text)
  datatype Rejected = Rejected(row: Row, joinKey: Text, reason: Reason)

  /** An invalid or orphan evidence diagnostic; an inauthentic receipt has no row. */
  datatype Diagnostic = Diagnostic(evidence: Option<Evidence>, digest: Option<Text>, provenance: Provenance, reason: Reason)
  datatype Missing = Missing(executionKey: Text, traceId: Text, profileId: Text, declared: Option<Text>, digest: Option<Text>)
  datatype Abstention = Abstention(executionKey: Text, digest: Text, reasonCode: Text)
  datatype Duplicate = Duplicate(joinKey: Text, digest: Text, occurrences: nat, row: Row)
  datatype Conflict = Conflict(joinKey: Text, digests: seq<Text>, rows: seq<Row>, multiple: bool)
  datatype DuplicateTrace = DuplicateTrace(digest: Text, traceId: Text, occurrences: nat)
  datatype ConflictTrace = ConflictTrace(key: Text, digests: seq<Text>, sameId: bool)
  datatype MissingProfile = MissingProfile(caseId: Text, replicateId: Text, missing: seq<Text>)

  function DigestOf(r: Row): Text { r.digest }

  function RejectedKey(r: Rejected): CompactKey { RejectedBy(r.joinKey, r.row.digest, r.reason, r.row.provenance) }

  function DiagnosticKey(x: Diagnostic): CompactKey {
    DiagnosticBy(
      x.digest, if x.evidence.Some? then Some(x.evidence.value.traceId) else None,
      if x.evidence.Some? then Some(x.evidence.value.profileId) else None, x.reason, x.provenance)
  }

  function MissingKey(x: Missing): CompactKey { MissingBy(x.executionKey, x.traceId, x.profileId, x.declared, x.digest) }
  function AbstentionKey(x: Abstention): CompactKey { AbstainedBy(x.executionKey, x.digest, x.reasonCode) }
  function DuplicateKey(x: Duplicate): CompactKey { DuplicateBy(x.joinKey, x.digest, x.occurrences, x.row.provenance) }

  function ConflictKey(x: Conflict): CompactKey {
    ConflictBy(x.joinKey, x.digests, x.multiple, seq(|x.rows|, i requires 0 <= i < |x.rows| => (x.rows[i].digest, x.rows[i].provenance)))
  }

  function DuplicateTraceKey(x: DuplicateTrace): CompactKey { DuplicateTraceBy(x.digest, x.traceId, x.occurrences) }
  function ConflictTraceKey(x: ConflictTrace): CompactKey { ConflictTraceBy(x.key, x.digests, x.sameId) }
  function MissingProfileKey(x: MissingProfile): CompactKey { MissingProfileBy(x.caseId, x.replicateId, x.missing) }

  /** sortByCompactKey */
  function SortCompact<T(!new)>(n: Names, xs: seq<T>, key: T -> CompactKey): seq<T> {
    Sort(xs, ByKey((x: T) => n.canonical(key(x))))
  }

  lemma SortCompactPermutes<T(!new)>(n: Names, xs: seq<T>, ys: seq<T>, key: T -> CompactKey)
    requires CollisionFree(n) && multiset(xs) == multiset(ys)
    requires forall a, b :: a in xs && b in xs && key(a) == key(b) ==> a == b
    ensures SortCompact(n, xs, key) == SortCompact(n, ys, key)
  {
    var text := (x: T) => n.canonical(key(x));
    ByKeyPreorder(text);
    ByKeyDistinguishes(text, xs);
    SortForgetsOrder(xs, ys, ByKey(text));
  }

  // ----- results

  datatype Outcome =
    | AmbiguousExecution
    | FailureZero
    | ScoredOutcome(record: Record)
    | DeclaredOutcome(record: Record)
    | RejectedOutcome(rejected: Rejected)
    | ConflictingEvidence
    | NoEvidence

  datatype Execution = Execution(key: Text, trace: Trace, splitBucket: Option<nat>, outcome: Outcome)

  datatype Pair = Pair(
    key: Text, caseId: Text, replicateId: Text, groupId: Text, split: Split, weight: real,
    slices: seq<Text>, profileIds: seq<Text>, executionKeys: seq<Text>)

  datatype SplitTally = SplitTally(split: Split, caseReplicates: nat, groups: nat, mass: real)
  datatype SliceTally = SliceTally(slice: Text, caseReplicates: nat, groups: nat)

  datatype Counts = Counts(
    traceRows: nat, acceptedTraceRows: nat, evidenceRows: nat, matchedRows: nat, scoredRows: nat,
    pairs: nat, cases: nat, caseReplicates: nat, groups: nat, trafficMass: real,
    splits: seq<SplitTally>, slices: seq<SliceTally>)

  datatype Diagnostics = Diagnostics(
    missing: seq<Missing>, invalid: seq<Diagnostic>, abstained: seq<Abstention>, orphan: seq<Diagnostic>,
    duplicate: seq<Duplicate>, conflicting: seq<Conflict>, duplicateTraces: seq<DuplicateTrace>,
    conflictingTraces: seq<ConflictTrace>, missingProfiles: seq<MissingProfile>)

  /** Why a dataset is not admissible: one reason per diagnostic list that is not empty. */
  datatype Blocking =
    | MissingBlocks | InvalidBlocks | AbstainedBlocks | OrphanBlocks | DuplicateBlocks | ConflictBlocks
    | DuplicateTraceBlocks | ConflictTraceBlocks | MissingProfileBlocks

  datatype Dataset = Dataset(
    assessmentContext: Option<Text>, traceSetDigest: Text, evaluatorSetDigest: Text, requiredProfileIds: seq<Text>,
    contexts: seq<Text>, executions: seq<Execution>, pairs: seq<Pair>, counts: Counts, diagnostics: Diagnostics,
    blocking: set<Blocking>)

  /** admissibility.valid */
  predicate Admissible(d: Dataset) { d.blocking == {} }

  datatype JoinError = TraceRejected | MetadataConflict
}
