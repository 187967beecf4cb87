/** Facts, events and snapshots of the evaluation controller, with their field-level schemas. */
module ControllerModel {
  import opened CodeUnits
  import opened Wrappers

  type Digest = Text
  type Slug = Text
  /** Elapsed milliseconds: Timestamps.TimestampOrder shows the text order agrees. */
  type Time = int

  const MAX_EVENTS := 10_000
  const MAX_ASSESSMENTS := 256
  const MAX_WINDOWS := 64
  const MAX_WINDOW_REVISIONS := 256
  const MAX_STALE_REASONS := 64

  datatype State =
    | Draft | Registered | Collecting | DevReady | Nominated | ShadowAssessing | HoldoutConfirmed
    | PromotionRecommended | Monitoring | Hold | Stale | RollbackRecommended | Retired

  datatype Policy = Policy(policyDigest: Digest, issuedAt: Time, expiresAt: Time)

  datatype Phase = Development | Holdout | Window

  datatype Status = NominatedStatus | NoCandidate | InsufficientEvidence | StaleStatus | Pass | HoldStatus

  datatype Assessment = Assessment(
    phase: Phase, status: Status, decisionDigest: Digest, contextDigest: Digest, protocolDigest: Digest,
    datasetDigest: Digest, traceSetDigest: Digest, evaluatorSetDigest: Digest,
    selectedPolicy: Option<Policy>, windowManifestDigest: Option<Digest>)

  datatype Manifest = Manifest(
    windowId: Slug, manifestDigest: Digest, protocolDigest: Digest, frozenPolicyDigest: Digest,
    eventTimeStart: Time, eventTimeEnd: Time, watermark: Time, revision: nat,
    predecessor: Option<Digest>, traceSetDigest: Digest, evaluatorSetDigest: Digest, capacityDigest: Digest)

  datatype Ledger = Ledger(windowId: Slug, revisions: seq<Manifest>)

  datatype Evidence = Evidence(datasetDigest: Digest, traceSetDigest: Digest, evaluatorSetDigest: Digest)

  datatype Observation = Observation(
    observationId: Slug, environmentId: Slug, policyDigest: Digest, observedAt: Time)

  datatype DriftScope = Evaluator | ExecutionProfile | AssessmentContext | Source | PolicyScope | WindowScope

  datatype Fact =
    | ProtocolRegistered(createdAt: Time, expiresAt: Time)
    | CollectionStarted(collectionId: Slug)
    | DevelopmentEvidenceReady(evidence: Evidence)
    | DevelopmentAssessmentRecorded(projection: Assessment)
    | ShadowAssessmentStarted(frozenPolicyDigest: Digest)
    | HoldoutAssessmentRecorded(projection: Assessment)
    | WindowManifestRecorded(manifest: Manifest)
    | WindowAssessmentRecorded(windowId: Slug, projection: Assessment)
    | DeploymentObserved(observation: Observation)
    | IdentityDriftRecorded(scope: DriftScope, expected: Digest, observed: Digest, reasonCode: Slug)
    | ProtocolExpiryObserved(asOf: Time)
    | ControllerRetired(reasonCode: Slug)

  datatype EventBody = EventBody(
    controllerId: Slug, studyId: Slug, protocolDigest: Digest, sequence: nat,
    predecessor: Option<Digest>, occurredAt: Time, fact: Fact, factDigest: Digest)

  datatype Event = Event(body: EventBody, eventId: Digest)

  datatype Snapshot = Snapshot(
    controllerId: Slug, studyId: Slug, protocolDigest: Digest, createdAt: Time, expiresAt: Time,
    state: State, sequence: nat, lastEventId: Option<Digest>, lastEventAt: Option<Time>,
    collectionId: Option<Slug>, evidence: Option<Evidence>, selectedPolicy: Option<Policy>,
    assessments: seq<Assessment>, windows: seq<Ledger>, deployment: Option<Observation>,
    staleReasons: seq<Slug>)

  /** The domain-separated digests: any functions, with collision freedom assumed only where stated. */
  datatype Hashes = Hashes(fact: Fact -> Digest, event: EventBody -> Digest, snapshot: Snapshot -> Digest)

  ghost predicate CollisionFreeEvents(h: Hashes) {
    forall b, c :: h.event(b) == h.event(c) ==> b == c
  }

  // ----- schemas

  predicate PolicySchema(p: Policy) { p.issuedAt < p.expiresAt }

  predicate OptionalPolicySchema(p: Option<Policy>) { p.Some? ==> PolicySchema(p.value) }

  /** Shape of a projection inside a fact; the nomination rule is not part of the fact schema. */
  predicate ProjectionSchema(a: Assessment, phase: Phase) {
    && a.phase == phase
    && OptionalPolicySchema(a.selectedPolicy)
    && match phase
       case Development =>
         a.status in {NominatedStatus, NoCandidate, InsufficientEvidence, StaleStatus} && a.windowManifestDigest.None?
       case Holdout =>
         a.status in {Pass, HoldStatus, InsufficientEvidence, StaleStatus} && a.windowManifestDigest.None? && a.selectedPolicy.Some?
       case Window =>
         a.status in {Pass, HoldStatus, InsufficientEvidence, StaleStatus} && a.windowManifestDigest.Some? && a.selectedPolicy.Some?
  }

  /** Nomination alone carries a policy among development results. */
  predicate NominationRule(a: Assessment) {
    a.phase == Development ==> (a.status == NominatedStatus <==> a.selectedPolicy.Some?)
  }

  /** Shape of a projection stored in a snapshot. */
  predicate AssessmentSchema(a: Assessment) {
    ProjectionSchema(a, a.phase) && NominationRule(a)
  }

  predicate ManifestSchema(m: Manifest) {
    && m.eventTimeStart < m.eventTimeEnd <= m.watermark
    && 1 <= m.revision
    && (m.revision == 1 <==> m.predecessor.None?)
  }

  predicate FactSchema(f: Fact) {
    match f
    case DevelopmentAssessmentRecorded(a) => ProjectionSchema(a, Development)
    case HoldoutAssessmentRecorded(a) => ProjectionSchema(a, Holdout)
    case WindowManifestRecorded(m) => ManifestSchema(m)
    case WindowAssessmentRecorded(_, a) => ProjectionSchema(a, Window)
    case IdentityDriftRecorded(_, expected, observed, _) => expected != observed
    case _ => true
  }

  /** What parseControllerEvent accepts. */
  predicate EventValid(e: Event, h: Hashes) {
    && FactSchema(e.body.fact)
    && 1 <= e.body.sequence <= MAX_EVENTS
    && (e.body.sequence == 1 <==> e.body.predecessor.None?)
    && e.body.factDigest == h.fact(e.body.fact)
    && e.eventId == h.event(e.body)
  }

  predicate SnapshotSchema(s: Snapshot) {
    && s.sequence <= MAX_EVENTS
    && OptionalPolicySchema(s.selectedPolicy)
    && |s.assessments| <= MAX_ASSESSMENTS
    && (forall a :: a in s.assessments ==> AssessmentSchema(a))
    && |s.windows| <= MAX_WINDOWS
    && (forall l :: l in s.windows ==> 1 <= |l.revisions| <= MAX_WINDOW_REVISIONS)
    && (forall l, m :: l in s.windows && m in l.revisions ==> ManifestSchema(m))
    && |s.staleReasons| <= MAX_STALE_REASONS
  }

  // ----- window ledgers

  /** Every sealed revision, ledger after ledger. */
  function AllRevisions(ws: seq<Ledger>): seq<Manifest> {
    if ws == [] then [] else AllRevisions(ws[..|ws| - 1]) + ws[|ws| - 1].revisions
  }

  lemma {:induction false} AllRevisionsConcat(a: seq<Ledger>, b: seq<Ledger>)
    ensures AllRevisions(a + b) == AllRevisions(a) + AllRevisions(b)
  {
    if b == [] {
      assert a + b == a;
    } else {
      var n := |b| - 1;
      AllRevisionsConcat(a, b[..n]);
      assert (a + b)[..|a + b| - 1] == a + b[..n];
      assert (a + b)[|a + b| - 1] == b[n];
    }
  }

  lemma AllRevisionsAround(ws: seq<Ledger>, k: nat)
    requires k < |ws|
    ensures AllRevisions(ws) == AllRevisions(ws[..k]) + ws[k].revisions + AllRevisions(ws[k + 1..])
  {
    assert ws == ws[..k + 1] + ws[k + 1..];
    AllRevisionsConcat(ws[..k + 1], ws[k + 1..]);
    AllRevisionsStep(ws, k);
  }

  lemma AllRevisionsStep(ws: seq<Ledger>, k: nat)
    requires k < |ws|
    ensures AllRevisions(ws[..k + 1]) == AllRevisions(ws[..k]) + ws[k].revisions
  {
    assert ws[..k + 1][..k] == ws[..k];
  }

  lemma {:induction false} RevisionMember(ws: seq<Ledger>, m: Manifest)
    ensures m in AllRevisions(ws) <==> exists l :: l in ws && m in l.revisions
  {
    if ws != [] {
      var n := |ws| - 1;
      RevisionMember(ws[..n], m);
      assert ws == ws[..n] + [ws[n]];
    }
  }

  predicate DistinctDigests(ms: seq<Manifest>) {
    forall i, j :: 0 <= i < j < |ms| ==> ms[i].manifestDigest != ms[j].manifestDigest
  }

  function LastRevision(l: Ledger): Manifest
    requires |l.revisions| >= 1
  {
    l.revisions[|l.revisions| - 1]
  }
}
