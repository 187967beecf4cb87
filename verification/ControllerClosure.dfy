/** The step function and the validator agree: exactly when a guarded event survives revalidation. */
module ControllerClosure {
  import opened CodeUnits
  import opened Wrappers
  import opened Sorting
  import opened ControllerModel
  import opened ControllerValidator
  import opened ControllerStep

  // ----- what carries over unchanged

  /** Same protocol, policy and ledgers, later event time. */
  predicate SameGround(s: Snapshot, n: Snapshot) {
    && n.protocolDigest == s.protocolDigest && n.createdAt == s.createdAt && n.expiresAt == s.expiresAt
    && n.lastEventAt.Some? && (s.lastEventAt.Some? ==> s.lastEventAt.value <= n.lastEventAt.value)
    && n.selectedPolicy == s.selectedPolicy
  }

  lemma WindowsCarry(s: Snapshot, n: Snapshot)
    requires ValidSnapshot(s) && SameGround(s, n) && n.windows == s.windows
    ensures WindowsOk(n)
  {
    forall m | m in AllRevisions(n.windows) ensures RevisionFits(n, m) {
      RevisionMember(s.windows, m);
      assert s.windows != [];
      assert s.sequence != 0;
      assert RevisionFits(s, m);
    }
  }

  /** The evidence rules do not depend on state, event count or stale reasons. */
  lemma RecordsCarry(s: Snapshot, n: Snapshot)
    requires ValidSnapshot(s) && SameGround(s, n) && n.windows == s.windows && n.assessments == s.assessments
    ensures WindowsOk(n) && AssessmentsOk(n) && PolicyOk(n)
  {
    WindowsCarry(s, n);
  }

  /** The envelope keeps identity and time rules for any successor state it allows. */
  lemma EnvelopeCarries(s: Snapshot, n: Snapshot, e: Event)
    requires IdentityOk(s) && EnvelopeOk(s, e.body)
    requires n.createdAt == s.createdAt && n.expiresAt == s.expiresAt
    requires n.sequence == e.body.sequence && n.lastEventId == Some(e.eventId) && n.lastEventAt == Some(e.body.occurredAt)
    requires !n.state.Draft? && (ExpirySafe(e.body.fact) ==> n.state.Stale? || n.state.Retired?)
    ensures IdentityOk(n) && TimeOk(n)
  {
  }

  /** A recorded deployment stays coherent while evidence only grows. */
  lemma DeploymentCarries(s: Snapshot, n: Snapshot)
    requires DeploymentOk(s) && SameGround(s, n) && n.deployment == s.deployment
    requires s.assessments <= n.assessments
    requires s.deployment.Some? ==> n.state in {Monitoring, State.Hold, RollbackRecommended, State.Stale, Retired}
    ensures DeploymentOk(n)
  {
    if s.deployment.Some? {
      var i :| 0 <= i < |s.assessments| && s.assessments[i].phase == Window && s.assessments[i].status == Pass;
      assert n.assessments[i] == s.assessments[i];
      assert n.assessments[1] == s.assessments[1];
    }
  }

  // ----- facts that record no assessment and no manifest

  lemma ProgressClosure(s: Snapshot, e: Event, sources: Sources, h: Hashes)
    requires Guarded(s, e, sources, h)
    requires var f := e.body.fact; f.ProtocolRegistered? || f.CollectionStarted? || f.DevelopmentEvidenceReady?
    ensures ValidSnapshot(ApplyFact(s, e, sources).value)
  {
    RecordsCarry(s, ApplyFact(s, e, sources).value);
  }

  lemma ShadowClosure(s: Snapshot, e: Event, sources: Sources, h: Hashes)
    requires Guarded(s, e, sources, h) && e.body.fact.ShadowAssessmentStarted?
    ensures ValidSnapshot(ApplyFact(s, e, sources).value)
  {
    RecordsCarry(s, ApplyFact(s, e, sources).value);
  }

  lemma EvidenceCarries(s: Snapshot, n: Snapshot)
    requires ValidSnapshot(s) && n.evidence == s.evidence && n.collectionId == s.collectionId
    requires n.assessments == s.assessments && n.windows == s.windows && n.selectedPolicy == s.selectedPolicy
    ensures EvidenceOk(n)
  {
    hide WindowsOk, AssessmentsOk, PolicyOk, AllRevisions;
  }

  /** A recommended promotion rests on a passing window result after a passing holdout. */
  lemma RecommendedAfterPass(s: Snapshot)
    requires ValidSnapshot(s) && s.state.PromotionRecommended?
    ensures |s.assessments| >= 3 && s.assessments[1].status == Pass && s.selectedPolicy.Some?
    ensures var a := s.assessments[|s.assessments| - 1]; a.phase == Window && a.status == Pass
  {
    hide WindowsOk, AllRevisions, EvidenceOk;
  }

  lemma DeploymentNext(s: Snapshot, n: Snapshot, e: Event, o: Observation)
    requires ValidSnapshot(s) && s.state.PromotionRecommended? && EnvelopeOk(s, e.body)
    requires e.body.fact == DeploymentObserved(o) && e.body.sequence <= MAX_EVENTS
    requires o.policyDigest == s.selectedPolicy.value.policyDigest
    requires o.observedAt <= e.body.occurredAt && (s.lastEventAt.Some? ==> s.lastEventAt.value <= o.observedAt)
    requires n == Advanced(s, e).(deployment := Some(o), state := Monitoring)
    ensures ValidSnapshot(n)
  {
    hide WindowsOk, AssessmentsOk, PolicyOk, AllRevisions, EvidenceOk;
    RecordsCarry(s, n);
    EnvelopeCarries(s, n, e);
    RecommendedAfterPass(s);
    EvidenceCarries(s, n);
    var i := |s.assessments| - 1;
    assert n.assessments[i].phase == Window && n.assessments[i].status == Pass;
  }

  lemma DeploymentClosure(s: Snapshot, e: Event, sources: Sources, h: Hashes)
    requires Guarded(s, e, sources, h) && e.body.fact.DeploymentObserved?
    ensures ValidSnapshot(ApplyFact(s, e, sources).value)
  {
    hide ValidSnapshot, ApplyWindow, LatestWindow, AppendReason;
    DeploymentNext(s, ApplyFact(s, e, sources).value, e, e.body.fact.observation);
  }

  /** Closing a controller: any accepted snapshot may become stale or retired. */
  lemma ClosingCarries(s: Snapshot, n: Snapshot, e: Event)
    requires ValidSnapshot(s) && EnvelopeOk(s, e.body) && ExpirySafe(e.body.fact)
    requires n == Advanced(s, e).(state := n.state, staleReasons := n.staleReasons)
    requires n.state.Stale? || n.state.Retired?
    requires n.state.Stale? ==> n.staleReasons != []
    ensures ValidSnapshot(n) <==> SnapshotSchema(n)
  {
    RecordsCarry(s, n);
    EnvelopeCarries(s, n, e);
    DeploymentCarries(s, n);
  }

  lemma ClosingClosure(s: Snapshot, e: Event, sources: Sources, h: Hashes)
    requires Guarded(s, e, sources, h) && ExpirySafe(e.body.fact)
    ensures ValidSnapshot(ApplyFact(s, e, sources).value) <==> Residual(s, e.body)
  {
    hide ValidSnapshot, FactSchema, ApplyWindow, LatestWindow, AppendReason;
    SchemaOf(s);
    match e.body.fact {
      case IdentityDriftRecorded(_, _, _, reason) => AppendReasonSize(s.staleReasons, reason);
      case ProtocolExpiryObserved(_) => AppendReasonSize(s.staleReasons, PROTOCOL_EXPIRED);
      case ControllerRetired(_) =>
    }
    ClosingCarries(s, ApplyFact(s, e, sources).value, e);
  }

  lemma SchemaOf(s: Snapshot)
    requires ValidSnapshot(s)
    ensures SnapshotSchema(s)
  {
  }

  // ----- recording an assessment

  lemma WindowCountStep(assessments: seq<Assessment>, a: Assessment)
    ensures WindowAssessmentCount(assessments + [a]) == WindowAssessmentCount(assessments) + (if a.phase == Window then 1 else 0)
  {
    assert (assessments + [a])[..|assessments|] == assessments;
  }

  lemma {:induction false} WindowCountOf(assessments: seq<Assessment>)
    requires PhasesOk(assessments)
    ensures WindowAssessmentCount(assessments) == if |assessments| <= 2 then 0 else |assessments| - 2
  {
    if assessments != [] {
      var front := assessments[..|assessments| - 1];
      assert PhasesOk(front);
      WindowCountOf(front);
    }
  }

  lemma DistinctDecisionsStep(assessments: seq<Assessment>, a: Assessment)
    requires DistinctDecisions(assessments)
    ensures DistinctDecisions(assessments + [a]) <==> forall b :: b in assessments ==> b.decisionDigest != a.decisionDigest
  {
    var all := assessments + [a];
    if DistinctDecisions(all) {
      forall b | b in assessments ensures b.decisionDigest != a.decisionDigest {
        var i :| 0 <= i < |assessments| && assessments[i] == b;
        assert all[i].decisionDigest != all[|assessments|].decisionDigest;
      }
    }
  }

  /** Stale results in a state without reasons leave exactly one reason. */
  lemma FirstReason(reason: Slug)
    ensures AppendReason([], reason) != [] && |AppendReason([], reason)| == 1
  {
    AppendReasonSize([], reason);
    assert [] + [reason] == [reason];
    assert (set r | r in [reason]) == {reason};
  }

  /** The first assessment: the three outcomes of a development decision. */
  lemma DevelopmentNext(s: Snapshot, n: Snapshot, e: Event, a: Assessment)
    requires ValidSnapshot(s) && s.state.DevReady? && EnvelopeOk(s, e.body) && ProjectionSchema(a, Development) && e.body.sequence <= MAX_EVENTS
    requires e.body.fact == DevelopmentAssessmentRecorded(a)
    requires a.protocolDigest == s.protocolDigest && SameEvidence(a, s.evidence.value)
    requires n == Advanced(s, e).(assessments := [a], state := n.state, selectedPolicy := n.selectedPolicy, staleReasons := n.staleReasons)
    requires n.selectedPolicy == if a.status == NominatedStatus then a.selectedPolicy else None
    requires n.state == if a.status == NominatedStatus then Nominated else if a.status == StaleStatus then State.Stale else State.Hold
    requires if a.status == StaleStatus then |n.staleReasons| == 1 else n.staleReasons == []
    ensures ValidSnapshot(n) <==> Residual(s, e.body)
  {
    EnvelopeCarries(s, n, e);
    assert n.assessments == [a] && n.windows == [] && AllRevisions(n.windows) == [];
    assert a in n.assessments;
    assert SnapshotSchema(n) <==> NominationRule(a);
    assert AssessmentsOk(n) && EvidenceOk(n);
  }

  lemma DevelopmentClosure(s: Snapshot, e: Event, sources: Sources, h: Hashes)
    requires Guarded(s, e, sources, h) && e.body.fact.DevelopmentAssessmentRecorded?
    ensures ValidSnapshot(ApplyFact(s, e, sources).value) <==> Residual(s, e.body)
  {
    var n := ApplyFact(s, e, sources).value;
    var a := e.body.fact.projection;
    assert s.assessments + [a] == [a];
    FirstReason(ASSESSMENT_STALE);
    assert s.staleReasons == [];
    DevelopmentNext(s, n, e, a);
  }

  /** Recording a later assessment: what the appended list needs. */
  lemma RecordingCarries(s: Snapshot, n: Snapshot, a: Assessment)
    requires ValidSnapshot(s) && SameGround(s, n) && n.windows == s.windows && n.assessments == s.assessments + [a]
    requires s.assessments != [] && s.selectedPolicy.Some?
    requires a.protocolDigest == s.protocolDigest && a.selectedPolicy == s.selectedPolicy
    requires PhasesOk(n.assessments)
    requires |s.assessments| >= 2 ==> Seals(AllRevisions(s.windows), a)
    ensures WindowsOk(n) && PolicyOk(n)
    ensures AssessmentsOk(n) <==> FreshDecision(s, a)
    ensures Revisions(n) == Revisions(s)
    ensures WindowAssessmentCount(n.assessments)
            == WindowAssessmentCount(s.assessments) + (if |s.assessments| >= 2 then 1 else 0)
    ensures WindowAssessmentCount(s.assessments) == if |s.assessments| <= 2 then 0 else |s.assessments| - 2
  {
    WindowsCarry(s, n);
    DistinctDecisionsStep(s.assessments, a);
    WindowCountOf(s.assessments);
    WindowCountStep(s.assessments, a);
    assert forall b :: b in n.assessments <==> b in s.assessments || b == a;
  }

  lemma RecordingSchema(s: Snapshot, n: Snapshot, a: Assessment)
    requires SnapshotSchema(s) && AssessmentSchema(a)
    requires n.assessments == s.assessments + [a] && n.windows == s.windows && n.selectedPolicy == s.selectedPolicy
    requires n.sequence <= MAX_EVENTS && |n.staleReasons| <= MAX_STALE_REASONS
    ensures SnapshotSchema(n) <==> |s.assessments| < MAX_ASSESSMENTS
  {
    assert forall b :: b in n.assessments <==> b in s.assessments || b == a;
  }

  /** A recorded assessment leaves only freshness, the size cap and the state rule to check. */
  lemma RecordingNext(s: Snapshot, n: Snapshot, e: Event, a: Assessment)
    requires ValidSnapshot(s) && EnvelopeOk(s, e.body) && !ExpirySafe(e.body.fact) && e.body.sequence <= MAX_EVENTS
    requires s.assessments != [] && s.selectedPolicy.Some? && AssessmentSchema(a)
    requires a.protocolDigest == s.protocolDigest && a.selectedPolicy == s.selectedPolicy
    requires n == Advanced(s, e).(assessments := s.assessments + [a], state := n.state, staleReasons := n.staleReasons)
    requires PhasesOk(n.assessments)
    requires |s.assessments| >= 2 ==> Seals(AllRevisions(s.windows), a)
    requires if n.state.Stale? then |n.staleReasons| == 1 else n.staleReasons == []
    requires !n.state.Draft?
    requires s.deployment.Some? ==> n.state in {Monitoring, State.Hold, RollbackRecommended, State.Stale, Retired}
    ensures ValidSnapshot(n) <==> FreshDecision(s, a) && |s.assessments| < MAX_ASSESSMENTS && StateOk(n)
  {
    EnvelopeCarries(s, n, e);
    RecordingCarries(s, n, a);
    RecordingSchema(s, n, a);
    DeploymentCarries(s, n);
  }

  /** The holdout outcomes. */
  lemma HoldoutNext(s: Snapshot, n: Snapshot, e: Event, a: Assessment)
    requires ValidSnapshot(s) && s.state.ShadowAssessing? && EnvelopeOk(s, e.body)
    requires e.body.fact == HoldoutAssessmentRecorded(a) && ProjectionSchema(a, Holdout) && e.body.sequence <= MAX_EVENTS
    requires a.protocolDigest == s.protocolDigest && a.selectedPolicy == s.selectedPolicy
    requires n == Advanced(s, e).(assessments := s.assessments + [a], state := n.state, staleReasons := n.staleReasons)
    requires n.state == if a.status == Pass then HoldoutConfirmed else if a.status == StaleStatus then State.Stale else State.Hold
    requires if a.status == StaleStatus then |n.staleReasons| == 1 else n.staleReasons == []
    ensures ValidSnapshot(n) <==> FreshDecision(s, a)
  {
    RecordingNext(s, n, e, a);
    RecordingCarries(s, n, a);
  }

  lemma HoldoutClosure(s: Snapshot, e: Event, sources: Sources, h: Hashes)
    requires Guarded(s, e, sources, h) && e.body.fact.HoldoutAssessmentRecorded?
    ensures ValidSnapshot(ApplyFact(s, e, sources).value) <==> Residual(s, e.body)
  {
    FirstReason(ASSESSMENT_STALE);
    assert s.staleReasons == [];
    HoldoutNext(s, ApplyFact(s, e, sources).value, e, e.body.fact.projection);
  }

  predicate UsesLatest(s: Snapshot, id: Slug, a: Assessment) {
    var latest := LatestWindow(s, id);
    && latest.Some?
    && a.windowManifestDigest == Some(latest.value.manifestDigest)
    && a.traceSetDigest == latest.value.traceSetDigest && a.evaluatorSetDigest == latest.value.evaluatorSetDigest
  }

  lemma LatestSeals(s: Snapshot, id: Slug, a: Assessment)
    requires UsesLatest(s, id, a)
    ensures Seals(AllRevisions(s.windows), a)
    ensures exists l :: l in s.windows && |l.revisions| >= 1 && a.windowManifestDigest == Some(LastRevision(l).manifestDigest)
  {
    var l := s.windows[FindLedger(s.windows, id).value];
    assert l in s.windows && LastRevision(l) in l.revisions;
    RevisionMember(s.windows, LastRevision(l));
  }

  function WindowOutcome(state: State, status: Status): State {
    if status == Pass then (if state.Monitoring? then Monitoring else PromotionRecommended)
    else if status == StaleStatus then State.Stale
    else if state.Monitoring? && status == HoldStatus then RollbackRecommended
    else State.Hold
  }

  lemma WindowStart(s: Snapshot)
    requires ValidSnapshot(s) && s.state in {HoldoutConfirmed, Monitoring}
    ensures StateOk(s) && |s.assessments| >= 2 && s.selectedPolicy.Some? && s.assessments[1].status == Pass
    ensures PhasesOk(s.assessments) && (s.deployment.Some? <==> s.state.Monitoring?)
  {
  }

  lemma EnvelopeSequence(s: Snapshot, e: EventBody)
    requires EnvelopeOk(s, e)
    ensures e.sequence == s.sequence + 1
  {
  }

  /** What recording a window assessment brings: a schema, a phase, sealed sources, and one more window result. */
  ghost predicate WindowReady(s: Snapshot, a: Assessment) {
    && StateOk(s) && |s.assessments| >= 2 && s.selectedPolicy.Some? && (s.deployment.Some? <==> s.state.Monitoring?)
    && AssessmentSchema(a) && a.phase == Window && PhasesOk(s.assessments + [a]) && Seals(AllRevisions(s.windows), a)
    && (exists l :: l in s.windows && |l.revisions| >= 1 && a.windowManifestDigest == Some(LastRevision(l).manifestDigest))
    && WindowAssessmentCount(s.assessments) == |s.assessments| - 2
    && WindowAssessmentCount(s.assessments + [a]) == WindowAssessmentCount(s.assessments) + 1
  }

  lemma WindowIsReady(s: Snapshot, id: Slug, a: Assessment)
    requires ValidSnapshot(s) && s.state in {HoldoutConfirmed, Monitoring} && ProjectionSchema(a, Window) && UsesLatest(s, id, a)
    ensures WindowReady(s, a)
  {
    WindowStart(s);
    WindowSchema(a);
    LatestSeals(s, id, a);
    hide ValidSnapshot, StateOk, UsesLatest, Seals, AllRevisions, AssessmentSchema;
    PhasesAppend(s.assessments, a);
    WindowCounts(s.assessments, a);
  }

  /** The window outcomes, before and after a deployment. */
  lemma WindowNext(s: Snapshot, n: Snapshot, e: Event, id: Slug, a: Assessment)
    requires ValidSnapshot(s) && s.state in {HoldoutConfirmed, Monitoring} && EnvelopeOk(s, e.body)
    requires e.body.fact == WindowAssessmentRecorded(id, a) && ProjectionSchema(a, Window) && e.body.sequence <= MAX_EVENTS
    requires a.protocolDigest == s.protocolDigest && a.selectedPolicy == s.selectedPolicy && UsesLatest(s, id, a)
    requires n == Advanced(s, e).(assessments := s.assessments + [a], state := n.state, staleReasons := n.staleReasons)
    requires n.state == WindowOutcome(s.state, a.status)
    requires if a.status == StaleStatus then |n.staleReasons| == 1 else n.staleReasons == []
    ensures ValidSnapshot(n) <==> FreshDecision(s, a) && |s.assessments| < MAX_ASSESSMENTS
  {
    WindowIsReady(s, id, a);
    EnvelopeSequence(s, e.body);
    hide ValidSnapshot, EnvelopeOk, StateOk, UsesLatest, Seals, AllRevisions, WindowAssessmentCount, FreshDecision, ProjectionSchema, AssessmentSchema, PhasesOk;
    WindowStateOk(s, n, a);
    RecordingNext(s, n, e, a);
  }

  lemma WindowCounts(assessments: seq<Assessment>, a: Assessment)
    requires PhasesOk(assessments) && |assessments| >= 2 && a.phase == Window
    ensures WindowAssessmentCount(assessments) == |assessments| - 2
    ensures WindowAssessmentCount(assessments + [a]) == WindowAssessmentCount(assessments) + 1
  {
    WindowCountOf(assessments);
    WindowCountStep(assessments, a);
  }

  lemma WindowSchema(a: Assessment)
    requires ProjectionSchema(a, Window)
    ensures AssessmentSchema(a) && a.phase == Window
  {
  }

  lemma PhasesAppend(assessments: seq<Assessment>, a: Assessment)
    requires PhasesOk(assessments) && |assessments| >= 2 && assessments[1].status == Pass && a.phase == Window
    ensures PhasesOk(assessments + [a])
  {
  }

  lemma WindowStateOk(s: Snapshot, n: Snapshot, a: Assessment)
    requires StateOk(s) && s.state in {HoldoutConfirmed, Monitoring}
    requires ProjectionSchema(a, Window)
    requires n == s.(assessments := s.assessments + [a], state := WindowOutcome(s.state, a.status), staleReasons := n.staleReasons,
                     sequence := s.sequence + 1, lastEventId := n.lastEventId, lastEventAt := n.lastEventAt)
    requires exists l :: l in s.windows && |l.revisions| >= 1 && a.windowManifestDigest == Some(LastRevision(l).manifestDigest)
    requires WindowAssessmentCount(n.assessments) == WindowAssessmentCount(s.assessments) + 1
    requires WindowAssessmentCount(s.assessments) == |s.assessments| - 2
    ensures StateOk(n)
  {
    assert n.assessments[|n.assessments| - 1] == a;
    assert n.assessments[0] == s.assessments[0] && n.assessments[1] == s.assessments[1];
  }

  lemma WindowAssessmentClosure(s: Snapshot, e: Event, sources: Sources, h: Hashes)
    requires Guarded(s, e, sources, h) && e.body.fact.WindowAssessmentRecorded?
    ensures ValidSnapshot(ApplyFact(s, e, sources).value) <==> Residual(s, e.body)
  {
    FirstReason(ASSESSMENT_STALE);
    assert s.staleReasons == [];
    WindowNext(s, ApplyFact(s, e, sources).value, e, e.body.fact.windowId, e.body.fact.projection);
  }

  // ----- recording a manifest

  predicate LedgersFull(ws: seq<Ledger>) {
    forall l :: l in ws ==> 1 <= |l.revisions|
  }

  /** One revision more: the old revisions around the new one. */
  ghost predicate GrowsBy(before: seq<Manifest>, after: seq<Manifest>, m: Manifest) {
    exists k :: 0 <= k <= |before| && after == before[..k] + [m] + before[k..]
  }

  lemma NewLedger(ws: seq<Ledger>, m: Manifest) returns (k: nat)
    requires LedgersOrdered(ws) && FindLedger(ws, m.windowId).None? && ApplyWindow(ws, m).Ok?
    ensures k <= |ws| && ApplyWindow(ws, m).value == ws[..k] + [Ledger(m.windowId, [m])] + ws[k..]
    ensures LedgersOrdered(ApplyWindow(ws, m).value)
  {
    var l, le := Ledger(m.windowId, [m]), ByKey((l: Ledger) => l.windowId);
    assert Sorted(ws, le);
    SortOfSorted(ws, le);
    assert (ws + [l])[..|ws|] == ws;
    k := InsertPosition(ws, l, le);
    NewLedgerOrdered(ws, l, k);
  }

  lemma NewLedgerOrdered(ws: seq<Ledger>, l: Ledger, k: nat)
    requires LedgersOrdered(ws) && k <= |ws|
    requires forall x :: x in ws ==> x.windowId != l.windowId
    requires k > 0 ==> Compare(ws[k - 1].windowId, l.windowId) <= 0
    requires k < |ws| ==> Compare(ws[k].windowId, l.windowId) > 0
    ensures LedgersOrdered(ws[..k] + [l] + ws[k..])
  {
    forall i | 0 <= i < |ws| ensures if i < k then Before(ws[i].windowId, l.windowId) else Before(l.windowId, ws[i].windowId) {
      if i < k {
        CompareZero(ws[k - 1].windowId, l.windowId);
        assert ws[k - 1] in ws;
        if i < k - 1 { BeforeTransitive(ws[i].windowId, ws[k - 1].windowId, l.windowId); }
      } else {
        CompareAntisymmetric(ws[k].windowId, l.windowId);
        if k < i { BeforeTransitive(l.windowId, ws[k].windowId, ws[i].windowId); }
      }
    }
    var after := ws[..k] + [l] + ws[k..];
    forall i, j | 0 <= i < j < |after| ensures Before(after[i].windowId, after[j].windowId) {
      if i != k && j != k {
        assert after[i] == ws[if i < k then i else i - 1] && after[j] == ws[if j < k then j else j - 1];
      } else if i == k {
        assert after[j] == ws[j - 1];
      } else {
        assert after[i] == ws[i];
      }
    }
  }

  lemma GrowsBetween(x: seq<Manifest>, y: seq<Manifest>, m: Manifest)
    ensures GrowsBy(x + y, x + [m] + y, m)
  {
    assert (x + y)[..|x|] == x && (x + y)[|x|..] == y;
  }

  lemma NewLedgerGrows(ws: seq<Ledger>, m: Manifest, k: nat)
    requires k <= |ws|
    ensures GrowsBy(AllRevisions(ws), AllRevisions(ws[..k] + [Ledger(m.windowId, [m])] + ws[k..]), m)
  {
    var l := Ledger(m.windowId, [m]);
    assert ws == ws[..k] + ws[k..];
    AllRevisionsConcat(ws[..k], ws[k..]);
    AllRevisionsConcat(ws[..k] + [l], ws[k..]);
    AllRevisionsConcat(ws[..k], [l]);
    AllRevisionsOne(l);
    GrowsBetween(AllRevisions(ws[..k]), AllRevisions(ws[k..]), m);
  }

  lemma AllRevisionsOne(l: Ledger)
    ensures AllRevisions([l]) == l.revisions
  {
    assert [l][..0] == [];
    assert [] + l.revisions == l.revisions;
  }

  lemma OlderLedger(ws: seq<Ledger>, m: Manifest) returns (k: nat)
    requires LedgersOrdered(ws) && FindLedger(ws, m.windowId).Some? && ApplyWindow(ws, m).Ok?
    ensures k < |ws| && ws[k].windowId == m.windowId && |ws[k].revisions| >= 1
    ensures m.revision == LastRevision(ws[k]).revision + 1 && Continues(LastRevision(ws[k]), m)
    ensures ApplyWindow(ws, m).value == ws[..k] + [Ledger(m.windowId, ws[k].revisions + [m])] + ws[k + 1..]
    ensures LedgersOrdered(ApplyWindow(ws, m).value)
  {
    k := FindLedger(ws, m.windowId).value;
    forall i | 0 <= i < |ws| ensures ws[i].windowId == m.windowId <==> i == k {
      BeforeTotal(ws[i].windowId, ws[k].windowId);
    }
  }

  lemma OlderLedgerGrows(ws: seq<Ledger>, m: Manifest, k: nat)
    requires k < |ws|
    ensures GrowsBy(AllRevisions(ws), AllRevisions(ws[..k] + [Ledger(m.windowId, ws[k].revisions + [m])] + ws[k + 1..]), m)
  {
    var l := Ledger(m.windowId, ws[k].revisions + [m]);
    AllRevisionsAround(ws, k);
    AllRevisionsConcat(ws[..k] + [l], ws[k + 1..]);
    AllRevisionsConcat(ws[..k], [l]);
    AllRevisionsOne(l);
    var x, r, y := AllRevisions(ws[..k]), ws[k].revisions, AllRevisions(ws[k + 1..]);
    GrowsBetween(x + r, y, m);
    Reassociate(x, r, [m]);
  }

  lemma Reassociate<T>(x: seq<T>, y: seq<T>, z: seq<T>)
    ensures x + (y + z) == x + y + z
  {
  }

  lemma InsertedMembers(before: seq<Manifest>, m: Manifest, k: nat, r: Manifest)
    requires k <= |before|
    ensures r in before[..k] + [m] + before[k..] <==> r in before || r == m
  {
    assert before == before[..k] + before[k..];
  }

  lemma InsertedDistinct(before: seq<Manifest>, m: Manifest, k: nat)
    requires k <= |before| && DistinctDigests(before)
    requires forall r :: r in before ==> r.manifestDigest != m.manifestDigest
    ensures DistinctDigests(before[..k] + [m] + before[k..])
  {
    var after := before[..k] + [m] + before[k..];
    forall i, j | 0 <= i < j < |after| ensures after[i].manifestDigest != after[j].manifestDigest {
      if i == k {
        assert after[j] == before[j - 1];
      } else if j == k {
        assert after[i] == before[i];
      } else {
        assert after[i] == before[if i < k then i else i - 1] && after[j] == before[if j < k then j else j - 1];
      }
    }
  }

  lemma InsertedFresh(before: seq<Manifest>, m: Manifest, k: nat, r: Manifest)
    requires k <= |before| && DistinctDigests(before[..k] + [m] + before[k..]) && r in before
    ensures r.manifestDigest != m.manifestDigest
  {
    var after := before[..k] + [m] + before[k..];
    var i :| 0 <= i < |before| && before[i] == r;
    var at := if i < k then i else i + 1;
    assert after[at] == r && after[k] == m;
  }

  lemma GrowsFacts(before: seq<Manifest>, after: seq<Manifest>, m: Manifest)
    requires GrowsBy(before, after, m) && DistinctDigests(before)
    ensures |after| == |before| + 1
    ensures forall r :: r in after <==> r in before || r == m
    ensures DistinctDigests(after) <==> forall r :: r in before ==> r.manifestDigest != m.manifestDigest
  {
    var k :| 0 <= k <= |before| && after == before[..k] + [m] + before[k..];
    forall r ensures r in after <==> r in before || r == m { InsertedMembers(before, m, k, r); }
    if DistinctDigests(after) {
      forall r | r in before ensures r.manifestDigest != m.manifestDigest { InsertedFresh(before, m, k, r); }
    }
    if forall r :: r in before ==> r.manifestDigest != m.manifestDigest { InsertedDistinct(before, m, k); }
  }

  predicate LedgersSound(ws: seq<Ledger>) {
    LedgersOrdered(ws) && LedgersFull(ws) && (forall l :: l in ws ==> Lineage(l))
  }

  lemma SealingNew(ws: seq<Ledger>, m: Manifest)
    requires LedgersSound(ws) && ApplyWindow(ws, m).Ok? && FindLedger(ws, m.windowId).None?
    ensures var after := ApplyWindow(ws, m).value;
            LedgersSound(after) && GrowsBy(AllRevisions(ws), AllRevisions(after), m) && |after| == |ws| + 1
  {
    var after := ApplyWindow(ws, m).value;
    var k := NewLedger(ws, m);
    NewLedgerGrows(ws, m, k);
    forall l | l in after ensures 1 <= |l.revisions| && Lineage(l) { assert l in ws || l == Ledger(m.windowId, [m]); }
  }

  lemma SealingOlder(ws: seq<Ledger>, m: Manifest)
    requires LedgersSound(ws) && ApplyWindow(ws, m).Ok? && FindLedger(ws, m.windowId).Some?
    ensures var after := ApplyWindow(ws, m).value;
            LedgersSound(after) && GrowsBy(AllRevisions(ws), AllRevisions(after), m) && |after| == |ws|
    ensures exists r :: r in AllRevisions(ws) && r.eventTimeStart == m.eventTimeStart
  {
    var after := ApplyWindow(ws, m).value;
    var k := OlderLedger(ws, m);
    OlderLedgerGrows(ws, m, k);
    var grown := Ledger(m.windowId, ws[k].revisions + [m]);
    assert ws[k] in ws;
    LineageGrows(ws[k], m);
    forall l | l in after ensures 1 <= |l.revisions| && Lineage(l) { assert l in ws || l == grown; }
    RevisionMember(ws, LastRevision(ws[k]));
  }

  /** Sealing a manifest keeps ledger order and lineage and adds exactly that revision. */
  lemma SealingLedgers(ws: seq<Ledger>, m: Manifest)
    requires LedgersSound(ws) && ApplyWindow(ws, m).Ok?
    ensures var after := ApplyWindow(ws, m).value;
            && LedgersSound(after) && GrowsBy(AllRevisions(ws), AllRevisions(after), m)
            && |after| == |ws| + (if FindLedger(ws, m.windowId).None? then 1 else 0)
    ensures FindLedger(ws, m.windowId).Some? ==> exists r :: r in AllRevisions(ws) && r.eventTimeStart == m.eventTimeStart
  {
    if FindLedger(ws, m.windowId).None? { SealingNew(ws, m); } else { SealingOlder(ws, m); }
  }

  /** Hence sealing adds exactly that revision, and digests stay distinct iff its digest is fresh. */
  lemma SealingAdds(ws: seq<Ledger>, m: Manifest)
    requires LedgersSound(ws) && ApplyWindow(ws, m).Ok? && DistinctDigests(AllRevisions(ws))
    ensures var before, after := AllRevisions(ws), AllRevisions(ApplyWindow(ws, m).value);
            && |after| == |before| + 1 && (forall r :: r in after <==> r in before || r == m)
            && (DistinctDigests(after) <==> forall r :: r in before ==> r.manifestDigest != m.manifestDigest)
  {
    hide ApplyWindow, AllRevisions, LedgersSound, DistinctDigests, GrowsBy;
    SealingLedgers(ws, m);
    GrowsFacts(AllRevisions(ws), AllRevisions(ApplyWindow(ws, m).value), m);
  }

  lemma LineageGrows(l: Ledger, m: Manifest)
    requires Lineage(l) && |l.revisions| >= 1 && m.windowId == l.windowId
    requires m.revision == LastRevision(l).revision + 1 && Continues(LastRevision(l), m)
    ensures Lineage(Ledger(l.windowId, l.revisions + [m]))
  {
    var grown := Ledger(l.windowId, l.revisions + [m]);
    assert RevisionAt(l, |l.revisions| - 1);
    forall i | 0 <= i < |grown.revisions| ensures RevisionAt(grown, i) {
      if i < |l.revisions| { assert RevisionAt(l, i); }
    }
  }

  lemma {:induction false} LedgerWithinTotal(ws: seq<Ledger>, l: Ledger)
    requires l in ws
    ensures |l.revisions| <= |AllRevisions(ws)|
  {
    var k :| 0 <= k < |ws| && ws[k] == l;
    AllRevisionsAround(ws, k);
  }

  lemma SealingSchema(s: Snapshot, n: Snapshot, m: Manifest)
    requires SnapshotSchema(s) && WindowsOk(s) && ManifestSchema(m)
    requires ApplyWindow(s.windows, m) == Ok(n.windows)
    requires n.assessments == s.assessments && n.selectedPolicy == s.selectedPolicy && n.staleReasons == s.staleReasons
    requires n.sequence <= MAX_EVENTS
    requires |AllRevisions(s.windows)| < MAX_WINDOW_REVISIONS
    ensures SnapshotSchema(n) <==> |n.windows| <= MAX_WINDOWS
  {
    SealingLedgers(s.windows, m);
    var before, after := AllRevisions(s.windows), AllRevisions(n.windows);
    GrowsFacts(before, after, m);
    forall l | l in n.windows ensures |l.revisions| <= MAX_WINDOW_REVISIONS { LedgerWithinTotal(n.windows, l); }
    forall l, r | l in n.windows && r in l.revisions ensures ManifestSchema(r) {
      RevisionMember(n.windows, r);
      if r != m {
        RevisionMember(s.windows, r);
      }
    }
  }

  lemma SealingWindows(s: Snapshot, n: Snapshot, m: Manifest)
    requires ValidSnapshot(s) && SameGround(s, n) && ManifestSchema(m)
    requires ApplyWindow(s.windows, m) == Ok(n.windows)
    requires m.protocolDigest == s.protocolDigest && s.selectedPolicy.Some?
    requires m.frozenPolicyDigest == s.selectedPolicy.value.policyDigest
    requires m.watermark <= n.lastEventAt.value < s.expiresAt
    ensures WindowsOk(n) <==>
            && FreshManifest(s, m) && |AllRevisions(s.windows)| < MAX_WINDOW_REVISIONS
            && (FindLedger(s.windows, m.windowId).None? ==> s.createdAt <= m.eventTimeStart)
  {
    SealingLedgers(s.windows, m);
    var before, after := AllRevisions(s.windows), AllRevisions(n.windows);
    GrowsFacts(before, after, m);
    assert m in after;
    assert forall r :: r in before ==> RevisionFits(s, r) && r in after;
    assert forall r :: r in after && r != m ==> RevisionFits(n, r);
    assert RevisionFits(n, m) <==> s.createdAt <= m.eventTimeStart;
    if FindLedger(s.windows, m.windowId).Some? {
      var r :| r in before && r.eventTimeStart == m.eventTimeStart;
      assert RevisionFits(s, r);
    }
  }

  /** Sealing a manifest: assessments keep their seals and the event count keeps its formula. */
  lemma ManifestNext(s: Snapshot, n: Snapshot, e: Event, m: Manifest)
    requires ValidSnapshot(s) && s.state in {ShadowAssessing, HoldoutConfirmed, PromotionRecommended, Monitoring}
    requires EnvelopeOk(s, e.body) && e.body.fact == WindowManifestRecorded(m) && ManifestSchema(m)
    requires e.body.sequence <= MAX_EVENTS
    requires m.protocolDigest == s.protocolDigest && m.frozenPolicyDigest == s.selectedPolicy.value.policyDigest
    requires m.watermark <= e.body.occurredAt
    requires ApplyWindow(s.windows, m) == Ok(n.windows)
    requires n == Advanced(s, e).(windows := n.windows, state := if s.state.PromotionRecommended? then HoldoutConfirmed else s.state)
    ensures ValidSnapshot(n) <==> Residual(s, e.body)
  {
    hide WindowsOk, AssessmentsOk, PolicyOk, EvidenceOk, StaleOk, StateOk, TimeOk, ApplyWindow;
    ManifestStart(s);
    EnvelopeCarries(s, n, e);
    DeploymentCarries(s, n);
    SealingWindows(s, n, m);
    if |AllRevisions(s.windows)| < MAX_WINDOW_REVISIONS { SealingSchema(s, n, m); }
    SealingRecords(s, n, m);
    SealingLedgers(s.windows, m);
  }

  lemma ManifestStart(s: Snapshot)
    requires ValidSnapshot(s) && s.state in {ShadowAssessing, HoldoutConfirmed, PromotionRecommended, Monitoring}
    ensures s.selectedPolicy.Some? && LedgersSound(s.windows) && s.sequence > 0
    ensures s.selectedPolicy.value.expiresAt == s.expiresAt
    ensures s.deployment.Some? ==> s.state.Monitoring?
  {
  }

  /** Sealing keeps every recorded assessment sealed. */
  lemma SealingAssessments(s: Snapshot, n: Snapshot, m: Manifest)
    requires ValidSnapshot(s) && ApplyWindow(s.windows, m) == Ok(n.windows)
    requires n.assessments == s.assessments && n.protocolDigest == s.protocolDigest
    ensures AssessmentsOk(n)
  {
    SealingLedgers(s.windows, m);
    var before, after := AllRevisions(s.windows), AllRevisions(n.windows);
    GrowsFacts(before, after, m);
    forall i | 2 <= i < |s.assessments| ensures Seals(after, s.assessments[i]) {
      assert Seals(before, s.assessments[i]);
    }
  }

  /** One more revision, one more event; a waiting promotion goes back to a confirmed holdout. */
  lemma SealingState(s: Snapshot, n: Snapshot)
    requires StateOk(s) && s.state in {ShadowAssessing, HoldoutConfirmed, PromotionRecommended, Monitoring}
    requires n == s.(windows := n.windows, state := if s.state.PromotionRecommended? then HoldoutConfirmed else s.state,
                     sequence := s.sequence + 1, lastEventId := n.lastEventId, lastEventAt := n.lastEventAt)
    requires Revisions(n) == Revisions(s) + 1
    ensures StateOk(n)
  {
    hide Revisions;
  }

  lemma SealingRecords(s: Snapshot, n: Snapshot, m: Manifest)
    requires ValidSnapshot(s) && s.state in {ShadowAssessing, HoldoutConfirmed, PromotionRecommended, Monitoring}
    requires SameGround(s, n) && ApplyWindow(s.windows, m) == Ok(n.windows)
    requires n == s.(windows := n.windows, state := if s.state.PromotionRecommended? then HoldoutConfirmed else s.state,
                     sequence := s.sequence + 1, lastEventId := n.lastEventId, lastEventAt := n.lastEventAt)
    ensures AssessmentsOk(n) && PolicyOk(n) && EvidenceOk(n) && StaleOk(n) && StateOk(n)
  {
    SealingAssessments(s, n, m);
    SealingCount(s, n, m);
    AssessingHasHappened(s);
    hide AssessmentsOk;
    SealingState(s, n);
    SealingPolicy(s, n);
  }

  lemma SealingCount(s: Snapshot, n: Snapshot, m: Manifest)
    requires ValidSnapshot(s) && ApplyWindow(s.windows, m) == Ok(n.windows)
    ensures Revisions(n) == Revisions(s) + 1
  {
    SealingLedgers(s.windows, m);
    GrowsFacts(AllRevisions(s.windows), AllRevisions(n.windows), m);
  }

  lemma AssessingHasHappened(s: Snapshot)
    requires ValidSnapshot(s) && s.state in {ShadowAssessing, HoldoutConfirmed, PromotionRecommended, Monitoring}
    ensures s.lastEventAt.Some?
  {
  }

  lemma SealingPolicy(s: Snapshot, n: Snapshot)
    requires PolicyOk(s) && EvidenceOk(s) && StaleOk(s) && StateOk(s) && SameGround(s, n) && s.lastEventAt.Some?
    requires s.state in {ShadowAssessing, HoldoutConfirmed, PromotionRecommended, Monitoring}
    requires n == s.(windows := n.windows, state := if s.state.PromotionRecommended? then HoldoutConfirmed else s.state,
                     sequence := s.sequence + 1, lastEventId := n.lastEventId, lastEventAt := n.lastEventAt)
    ensures PolicyOk(n) && EvidenceOk(n) && StaleOk(n)
  {
  }

  lemma ManifestClosure(s: Snapshot, e: Event, sources: Sources, h: Hashes)
    requires Guarded(s, e, sources, h) && e.body.fact.WindowManifestRecorded?
    ensures ValidSnapshot(ApplyFact(s, e, sources).value) <==> Residual(s, e.body)
  {
    ManifestNext(s, ApplyFact(s, e, sources).value, e, e.body.fact.manifest);
  }

  /** Validator closure: a guarded event survives revalidation exactly when the residual condition holds. */
  lemma StepClosure(s: Snapshot, e: Event, sources: Sources, h: Hashes)
    requires Guarded(s, e, sources, h)
    ensures ValidSnapshot(ApplyFact(s, e, sources).value) <==> Residual(s, e.body)
    ensures Apply(s, e, sources, h) == if Residual(s, e.body) then ApplyFact(s, e, sources) else Err(Revalidation)
  {
    match e.body.fact {
      case DevelopmentAssessmentRecorded(_) => DevelopmentClosure(s, e, sources, h);
      case HoldoutAssessmentRecorded(_) => HoldoutClosure(s, e, sources, h);
      case WindowManifestRecorded(_) => ManifestClosure(s, e, sources, h);
      case WindowAssessmentRecorded(_, _) => WindowAssessmentClosure(s, e, sources, h);
      case DeploymentObserved(_) => DeploymentClosure(s, e, sources, h);
      case ShadowAssessmentStarted(_) => ShadowClosure(s, e, sources, h);
      case ProtocolRegistered(_, _) => ProgressClosure(s, e, sources, h);
      case CollectionStarted(_) => ProgressClosure(s, e, sources, h);
      case DevelopmentEvidenceReady(_) => ProgressClosure(s, e, sources, h);
      case _ => ClosingClosure(s, e, sources, h);
    }
  }
}
