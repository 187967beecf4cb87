/** The snapshot validator: what an accepted controller snapshot looks like, and the loops that decide it. */
module ControllerValidator {
  import opened CodeUnits
  import opened Wrappers
  import opened ControllerModel

  // ----- declarative form

  predicate IdentityOk(s: Snapshot) {
    && s.createdAt < s.expiresAt
    && (s.sequence == 0 <==> s.lastEventId.None?)
    && (s.sequence == 0 <==> s.lastEventAt.None?)
    && (s.sequence == 0 ==>
          && s.state.Draft? && s.collectionId.None? && s.evidence.None? && s.selectedPolicy.None?
          && s.assessments == [] && s.windows == [] && s.deployment.None? && s.staleReasons == [])
    && (s.sequence != 0 ==> !s.state.Draft?)
  }

  predicate TimeOk(s: Snapshot) {
    s.lastEventAt.Some? ==>
      && s.createdAt <= s.lastEventAt.value
      && (!s.state.Stale? && !s.state.Retired? ==> s.lastEventAt.value < s.expiresAt)
  }

  predicate SourceChanged(prior: Manifest, next: Manifest) {
    !(next.traceSetDigest == prior.traceSetDigest && next.evaluatorSetDigest == prior.evaluatorSetDigest
      && next.capacityDigest == prior.capacityDigest)
  }

  /** A revision continues its predecessor: same event time, no earlier watermark, changed sources. */
  predicate Continues(prior: Manifest, next: Manifest) {
    && next.predecessor == Some(prior.manifestDigest)
    && next.eventTimeStart == prior.eventTimeStart && next.eventTimeEnd == prior.eventTimeEnd
    && prior.watermark <= next.watermark
    && SourceChanged(prior, next)
  }

  predicate RevisionAt(l: Ledger, i: nat)
    requires i < |l.revisions|
  {
    && l.revisions[i].windowId == l.windowId
    && l.revisions[i].revision == i + 1
    && (if i == 0 then l.revisions[i].predecessor.None? else Continues(l.revisions[i - 1], l.revisions[i]))
  }

  predicate Lineage(l: Ledger) {
    forall i :: 0 <= i < |l.revisions| ==> RevisionAt(l, i)
  }

  predicate RevisionFits(s: Snapshot, m: Manifest) {
    && m.protocolDigest == s.protocolDigest
    && s.selectedPolicy.Some? && m.frozenPolicyDigest == s.selectedPolicy.value.policyDigest
    && s.createdAt <= m.eventTimeStart && m.watermark < s.expiresAt
    && (s.lastEventAt.Some? ==> m.watermark <= s.lastEventAt.value)
  }

  predicate LedgersOrdered(ws: seq<Ledger>) {
    forall i, j :: 0 <= i < j < |ws| ==> Before(ws[i].windowId, ws[j].windowId)
  }

  predicate WindowsOk(s: Snapshot) {
    && LedgersOrdered(s.windows)
    && |AllRevisions(s.windows)| <= MAX_WINDOW_REVISIONS
    && (forall l :: l in s.windows ==> Lineage(l))
    && (forall m :: m in AllRevisions(s.windows) ==> RevisionFits(s, m))
    && DistinctDigests(AllRevisions(s.windows))
  }

  predicate Seals(ms: seq<Manifest>, a: Assessment) {
    exists m :: m in ms && a.windowManifestDigest == Some(m.manifestDigest)
                && a.traceSetDigest == m.traceSetDigest && a.evaluatorSetDigest == m.evaluatorSetDigest
  }

  /** One development result, then at most one holdout of a nomination, then windows of a passing holdout. */
  predicate PhasesOk(assessments: seq<Assessment>) {
    && (|assessments| > 0 ==> assessments[0].phase == Development)
    && (|assessments| > 1 ==> assessments[0].status == NominatedStatus && assessments[1].phase == Holdout)
    && (|assessments| > 2 ==> assessments[1].status == Pass)
    && (forall i :: 2 <= i < |assessments| ==> assessments[i].phase == Window)
  }

  predicate DistinctDecisions(assessments: seq<Assessment>) {
    forall i, j :: 0 <= i < j < |assessments| ==> assessments[i].decisionDigest != assessments[j].decisionDigest
  }

  predicate AssessmentsOk(s: Snapshot) {
    && DistinctDecisions(s.assessments)
    && (forall a :: a in s.assessments ==> a.protocolDigest == s.protocolDigest)
    && PhasesOk(s.assessments)
    && (forall i :: 2 <= i < |s.assessments| ==> Seals(AllRevisions(s.windows), s.assessments[i]))
  }

  predicate Nominates(s: Snapshot) {
    |s.assessments| > 0 && s.assessments[0].status == NominatedStatus
  }

  predicate PolicyOk(s: Snapshot) {
    && (s.selectedPolicy.Some? ==>
          && s.createdAt <= s.selectedPolicy.value.issuedAt
          && s.selectedPolicy.value.expiresAt == s.expiresAt
          && (s.lastEventAt.Some? ==> s.selectedPolicy.value.issuedAt <= s.lastEventAt.value))
    && (s.selectedPolicy.Some? <==> Nominates(s))
    && (s.selectedPolicy.Some? ==> s.assessments[0].selectedPolicy == s.selectedPolicy)
    && (forall i :: 1 <= i < |s.assessments| ==> s.assessments[i].selectedPolicy == s.selectedPolicy)
  }

  predicate EvidenceOk(s: Snapshot) {
    && (s.evidence.Some? ==> s.collectionId.Some?)
    && (s.assessments != [] ==> s.evidence.Some? && SameEvidence(s.assessments[0], s.evidence.value))
    && (s.windows != [] ==> s.selectedPolicy.Some?)
  }

  predicate SameEvidence(a: Assessment, e: Evidence) {
    && a.datasetDigest == e.datasetDigest && a.traceSetDigest == e.traceSetDigest
    && a.evaluatorSetDigest == e.evaluatorSetDigest
  }

  predicate HoldoutPassed(s: Snapshot) {
    |s.assessments| > 1 && s.assessments[1].phase == Holdout && s.assessments[1].status == Pass
  }

  predicate DeploymentOk(s: Snapshot) {
    s.deployment.Some? ==>
      && s.selectedPolicy.Some? && HoldoutPassed(s)
      && (exists i :: 0 <= i < |s.assessments| && s.assessments[i].phase == Window && s.assessments[i].status == Pass)
      && s.deployment.value.policyDigest == s.selectedPolicy.value.policyDigest
      && s.createdAt <= s.deployment.value.observedAt < s.expiresAt
      && s.lastEventAt.Some? && s.deployment.value.observedAt <= s.lastEventAt.value
      && s.state in {Monitoring, State.Hold, RollbackRecommended, State.Stale, Retired}
  }

  predicate StaleOk(s: Snapshot) {
    && (s.staleReasons != [] ==> s.state.Stale? || s.state.Retired?)
    && (s.state.Stale? ==> s.staleReasons != [])
  }

  function WindowAssessmentCount(assessments: seq<Assessment>): nat {
    if assessments == [] then 0
    else WindowAssessmentCount(assessments[..|assessments| - 1])
         + (if assessments[|assessments| - 1].phase == Window then 1 else 0)
  }

  predicate LatestWindowAssessmentIs(s: Snapshot, status: Status) {
    && s.assessments != []
    && var last := s.assessments[|s.assessments| - 1];
       && last.phase == Window && last.status == status
       && exists l :: l in s.windows && |l.revisions| >= 1
                      && last.windowManifestDigest == Some(LastRevision(l).manifestDigest)
  }

  predicate HasCollection(s: Snapshot) { s.collectionId.Some? }
  predicate HasDevelopmentEvidence(s: Snapshot) { HasCollection(s) && s.evidence.Some? }
  predicate HasNomination(s: Snapshot) { HasDevelopmentEvidence(s) && s.selectedPolicy.Some? && Nominates(s) }
  predicate HasPassingHoldout(s: Snapshot) { HasNomination(s) && HoldoutPassed(s) }
  predicate HasHoldout(s: Snapshot) { |s.assessments| > 1 }

  function Revisions(s: Snapshot): nat { |AllRevisions(s.windows)| }
  function PostHoldoutSequence(s: Snapshot): nat { 6 + Revisions(s) + WindowAssessmentCount(s.assessments) }

  predicate FailedClosed(s: Snapshot) {
    s.assessments != [] && s.assessments[|s.assessments| - 1].status in {NoCandidate, InsufficientEvidence, HoldStatus}
  }

  /** The per-state rules: event counts and the evidence each state stands on. */
  predicate StateOk(s: Snapshot) {
    match s.state
    case Draft => true
    case Registered =>
      && s.sequence == 1 && s.collectionId.None? && s.evidence.None? && s.selectedPolicy.None?
      && s.assessments == [] && s.windows == [] && s.deployment.None?
    case Collecting =>
      && s.sequence == 2 && HasCollection(s) && s.evidence.None? && s.selectedPolicy.None?
      && s.assessments == [] && s.windows == [] && s.deployment.None?
    case DevReady =>
      && s.sequence == 3 && HasDevelopmentEvidence(s) && s.selectedPolicy.None?
      && s.assessments == [] && s.windows == [] && s.deployment.None?
    case Nominated =>
      s.sequence == 4 && HasNomination(s) && !HasHoldout(s) && s.windows == [] && s.deployment.None?
    case ShadowAssessing =>
      s.sequence == 5 + Revisions(s) && HasNomination(s) && !HasHoldout(s) && s.deployment.None?
    case HoldoutConfirmed =>
      s.sequence == PostHoldoutSequence(s) && HasPassingHoldout(s) && s.deployment.None?
    case PromotionRecommended =>
      && s.sequence == PostHoldoutSequence(s) && HasPassingHoldout(s)
      && LatestWindowAssessmentIs(s, Pass) && s.deployment.None?
    case Monitoring =>
      s.sequence == PostHoldoutSequence(s) + 1 && HasPassingHoldout(s) && s.deployment.Some?
    case Hold =>
      && HasDevelopmentEvidence(s)
      && s.sequence == (if s.selectedPolicy.None? then 3 + |s.assessments|
                        else 4 + |s.assessments| + Revisions(s) + (if s.deployment.None? then 0 else 1))
      && FailedClosed(s)
    case RollbackRecommended =>
      && s.sequence == PostHoldoutSequence(s) + 1 && HasPassingHoldout(s)
      && s.deployment.Some? && LatestWindowAssessmentIs(s, HoldStatus)
    case Stale => true
    case Retired => true
  }

  /** Everything parseControllerSnapshot checks, apart from the self digest. */
  predicate ValidSnapshot(s: Snapshot) {
    && SnapshotSchema(s)
    && IdentityOk(s) && TimeOk(s) && WindowsOk(s) && AssessmentsOk(s) && PolicyOk(s)
    && EvidenceOk(s) && DeploymentOk(s) && StaleOk(s) && StateOk(s)
  }

  // ----- the loops of assertSnapshotBodySemantics

  /** Ledgers read so far and the read part of the current ledger are a prefix of all revisions. */
  lemma ReadPart(ws: seq<Ledger>, k: nat, j: nat)
    requires k < |ws| && j <= |ws[k].revisions|
    ensures AllRevisions(ws[..k]) + ws[k].revisions[..j] <= AllRevisions(ws)
  {
    AllRevisionsAround(ws, k);
    assert ws[k].revisions == ws[k].revisions[..j] + ws[k].revisions[j..];
    assert AllRevisions(ws) == (AllRevisions(ws[..k]) + ws[k].revisions[..j])
                               + (ws[k].revisions[j..] + AllRevisions(ws[k + 1..]));
  }

  /** The window rules hold of the first k ledgers. */
  predicate LedgersRead(s: Snapshot, k: nat)
    requires k <= |s.windows|
  {
    && LedgersOrdered(s.windows[..k])
    && (forall l :: l in s.windows[..k] ==> Lineage(l))
    && (forall m :: m in AllRevisions(s.windows[..k]) ==> RevisionFits(s, m))
    && DistinctDigests(AllRevisions(s.windows[..k]))
  }

  ghost predicate IndexOf(manifests: map<Digest, Manifest>, ms: seq<Manifest>) {
    && (forall d :: d in manifests ==> manifests[d].manifestDigest == d)
    && (forall m :: m in manifests.Values <==> m in ms)
  }

  /** Ledger k keeps the window rules over everything read before it. */
  predicate LedgerOk(s: Snapshot, k: nat)
    requires k < |s.windows|
  {
    && Lineage(s.windows[k])
    && (forall m :: m in s.windows[k].revisions ==> RevisionFits(s, m))
    && DistinctDigests(AllRevisions(s.windows[..k]) + s.windows[k].revisions)
  }

  /** One pass over the revisions of ledger k, adding them to the manifest index. */
  method CheckLedger(s: Snapshot, k: nat, manifests: map<Digest, Manifest>)
    returns (ok: bool, index: map<Digest, Manifest>)
    requires k < |s.windows|
    requires IndexOf(manifests, AllRevisions(s.windows[..k]))
    requires DistinctDigests(AllRevisions(s.windows[..k]))
    ensures ok <==> LedgerOk(s, k)
    ensures ok ==> IndexOf(index, AllRevisions(s.windows[..k]) + s.windows[k].revisions)
  {
    var ledger := s.windows[k];
    ghost var flat := AllRevisions(s.windows[..k]);
    index := manifests;
    var previous: Option<Manifest> := None;
    var i := 0;
    while i < |ledger.revisions|
      invariant 0 <= i <= |ledger.revisions|
      invariant flat == AllRevisions(s.windows[..k]) + ledger.revisions[..i]
      invariant previous == if i == 0 then None else Some(ledger.revisions[i - 1])
      invariant forall j :: 0 <= j < i ==> RevisionAt(ledger, j)
      invariant forall m :: m in ledger.revisions[..i] ==> RevisionFits(s, m)
      invariant DistinctDigests(flat)
      invariant IndexOf(index, flat)
    {
      var revision := ledger.revisions[i];
      var expected := if previous.None? then None else Some(previous.value.manifestDigest);
      if revision.windowId != ledger.windowId || revision.revision != i + 1 || revision.predecessor != expected {
        assert !RevisionAt(ledger, i);
        return false, index;
      }
      if !RevisionFits(s, revision) { return false, index; }
      if revision.manifestDigest in index {
        Collision(flat, index[revision.manifestDigest], revision, ledger.revisions[i + 1..]);
        SplitAround(AllRevisions(s.windows[..k]), ledger.revisions, i);
        return false, index;
      }
      if previous.Some? && !Continues(previous.value, revision) {
        assert !RevisionAt(ledger, i);
        return false, index;
      }
      assert ledger.revisions[..i + 1] == ledger.revisions[..i] + [revision];
      IndexGrows(index, flat, revision);
      index := index[revision.manifestDigest := revision];
      flat := flat + [revision];
      previous := Some(revision);
      i := i + 1;
    }
    assert ledger.revisions[..i] == ledger.revisions;
    return true, index;
  }

  lemma Collision(flat: seq<Manifest>, m: Manifest, next: Manifest, rest: seq<Manifest>)
    requires m in flat && m.manifestDigest == next.manifestDigest
    ensures !DistinctDigests(flat + [next] + rest)
  {
    var i :| 0 <= i < |flat| && flat[i] == m;
    var all := flat + [next] + rest;
    assert all[i] == m && all[|flat|] == next;
  }

  lemma SplitAround<T>(x: seq<T>, r: seq<T>, i: nat)
    requires i < |r|
    ensures x + r == x + r[..i] + [r[i]] + r[i + 1..]
  {
    assert r == r[..i] + [r[i]] + r[i + 1..];
  }

  lemma IndexGrows(index: map<Digest, Manifest>, ms: seq<Manifest>, m: Manifest)
    requires IndexOf(index, ms) && m.manifestDigest !in index && DistinctDigests(ms)
    ensures IndexOf(index[m.manifestDigest := m], ms + [m])
    ensures DistinctDigests(ms + [m])
  {
    var grown := index[m.manifestDigest := m];
    assert grown[m.manifestDigest] == m;
    forall x | x in index.Values ensures x in grown.Values {
      var d :| d in index && index[d] == x;
      assert grown[d] == x;
    }
    forall i | 0 <= i < |ms| ensures ms[i].manifestDigest != m.manifestDigest {
      assert ms[i] in index.Values;
    }
  }

  lemma LedgersReadStep(s: Snapshot, k: nat)
    requires k < |s.windows| && LedgersRead(s, k) && LedgerOk(s, k)
    requires k > 0 ==> Before(s.windows[k - 1].windowId, s.windows[k].windowId)
    ensures LedgersRead(s, k + 1)
  {
    OrderedExtends(s.windows, k);
    AllRevisionsStep(s.windows, k);
    assert s.windows[..k + 1] == s.windows[..k] + [s.windows[k]];
  }

  lemma BudgetFails(s: Snapshot, k: nat)
    requires k < |s.windows|
    requires |AllRevisions(s.windows[..k])| + |s.windows[k].revisions| > MAX_WINDOW_REVISIONS
    ensures !WindowsOk(s)
  {
    ReadPart(s.windows, k, |s.windows[k].revisions|);
  }

  /** The ledger walk: code-unit order, revision budget, lineage, coherence and digest uniqueness. */
  method CheckWindows(s: Snapshot) returns (ok: bool, manifests: map<Digest, Manifest>)
    ensures ok <==> WindowsOk(s)
    ensures ok ==> IndexOf(manifests, AllRevisions(s.windows))
  {
    manifests := map[];
    var windowIds: set<Slug> := {};
    var total := 0;
    var previousWindowId: Option<Slug> := None;
    var k := 0;
    while k < |s.windows|
      invariant 0 <= k <= |s.windows|
      invariant previousWindowId == if k == 0 then None else Some(s.windows[k - 1].windowId)
      invariant forall id :: id in windowIds <==> exists j :: 0 <= j < k && s.windows[j].windowId == id
      invariant total == |AllRevisions(s.windows[..k])| <= MAX_WINDOW_REVISIONS
      invariant LedgersRead(s, k)
      invariant IndexOf(manifests, AllRevisions(s.windows[..k]))
    {
      var ledger := s.windows[k];
      if ledger.windowId in windowIds {
        BeforeTotal(ledger.windowId, ledger.windowId);
        return false, manifests;
      }
      if previousWindowId.Some? && !Before(previousWindowId.value, ledger.windowId) { return false, manifests; }
      total := total + |ledger.revisions|;
      if total > MAX_WINDOW_REVISIONS {
        BudgetFails(s, k);
        return false, manifests;
      }
      var fine, index := CheckLedger(s, k, manifests);
      if !fine {
        LedgerHolds(s, k);
        return false, manifests;
      }
      LedgersReadStep(s, k);
      AllRevisionsStep(s.windows, k);
      manifests := index;
      windowIds := windowIds + {ledger.windowId};
      previousWindowId := Some(ledger.windowId);
      k := k + 1;
    }
    assert s.windows[..k] == s.windows;
    return true, manifests;
  }

  lemma OrderedExtends(ws: seq<Ledger>, k: nat)
    requires k < |ws| && LedgersOrdered(ws[..k])
    requires k > 0 ==> Before(ws[k - 1].windowId, ws[k].windowId)
    ensures LedgersOrdered(ws[..k + 1])
  {
    forall i | 0 <= i < k ensures Before(ws[i].windowId, ws[k].windowId) {
      if i < k - 1 {
        assert Before(ws[..k][i].windowId, ws[..k][k - 1].windowId);
        BeforeTransitive(ws[i].windowId, ws[k - 1].windowId, ws[k].windowId);
      }
    }
    var read := ws[..k + 1];
    forall i, j | 0 <= i < j < |read| ensures Before(read[i].windowId, read[j].windowId) {
      if j < k { assert Before(ws[..k][i].windowId, ws[..k][j].windowId); }
    }
  }

  lemma LedgerHolds(s: Snapshot, k: nat)
    requires k < |s.windows|
    ensures WindowsOk(s) ==> LedgerOk(s, k)
  {
    var l := s.windows[k];
    ReadPart(s.windows, k, |l.revisions|);
    assert l.revisions[..|l.revisions|] == l.revisions;
    var all, read := AllRevisions(s.windows), AllRevisions(s.windows[..k]) + l.revisions;
    if WindowsOk(s) {
      assert l in s.windows;
      forall m | m in l.revisions ensures RevisionFits(s, m) {
        RevisionMember(s.windows, m);
      }
      forall i, j | 0 <= i < j < |read| ensures read[i].manifestDigest != read[j].manifestDigest {
        assert all[i] == read[i] && all[j] == read[j];
      }
    }
  }

  lemma DecisionStep(assessments: seq<Assessment>, i: nat)
    requires i < |assessments| && DistinctDecisions(assessments[..i])
    ensures DistinctDecisions(assessments[..i + 1])
            <==> forall j :: 0 <= j < i ==> assessments[j].decisionDigest != assessments[i].decisionDigest
    ensures DistinctDecisions(assessments) ==> DistinctDecisions(assessments[..i + 1])
  {
    var read := assessments[..i + 1];
    if DistinctDecisions(read) {
      forall j | 0 <= j < i ensures assessments[j].decisionDigest != assessments[i].decisionDigest {
        assert read[j].decisionDigest != read[i].decisionDigest;
      }
    }
    if forall j :: 0 <= j < i ==> assessments[j].decisionDigest != assessments[i].decisionDigest {
      forall a, b | 0 <= a < b < |read| ensures read[a].decisionDigest != read[b].decisionDigest {
        if b < i { assert assessments[..i][a].decisionDigest != assessments[..i][b].decisionDigest; }
      }
    }
  }

  lemma PhaseStep(assessments: seq<Assessment>, i: nat)
    requires i < |assessments| && PhasesOk(assessments[..i])
    ensures PhasesOk(assessments[..i + 1]) <==>
            if i == 0 then assessments[i].phase == Development
            else if i == 1 then assessments[0].status == NominatedStatus && assessments[i].phase == Holdout
            else assessments[1].status == Pass && assessments[i].phase == Window
    ensures PhasesOk(assessments) ==> PhasesOk(assessments[..i + 1])
  {
    var read := assessments[..i + 1];
    assert forall j :: 0 <= j < i ==> assessments[..i][j] == read[j];
    assert read[i] == assessments[i];
  }

  lemma WindowsProjected(s: Snapshot)
    requires SnapshotSchema(s)
    ensures forall a :: a in s.assessments && a.phase == Window ==> a.windowManifestDigest.Some?
  {
  }

  /** What the walk remembers after i assessments. */
  predicate Remembered(assessments: seq<Assessment>, i: nat, previousPhase: int, development: Option<Assessment>, holdout: Option<Assessment>) {
    && i <= |assessments|
    && previousPhase == (if i == 0 then -1 else if i == 1 then 0 else if i == 2 then 1 else 2)
    && development == (if i > 0 then Some(assessments[0]) else None)
    && holdout == (if i > 1 then Some(assessments[1]) else None)
  }

  /** Phase order: one development result, then one holdout after a nomination, then windows after a passing holdout. */
  method CheckPhase(assessments: seq<Assessment>, i: nat, previousPhase: int, development: Option<Assessment>, holdout: Option<Assessment>)
    returns (ok: bool, phase: int, development': Option<Assessment>, holdout': Option<Assessment>)
    requires i < |assessments| && PhasesOk(assessments[..i]) && Remembered(assessments, i, previousPhase, development, holdout)
    ensures ok <==> PhasesOk(assessments[..i + 1])
    ensures ok ==> Remembered(assessments, i + 1, phase, development', holdout')
  {
    var assessment := assessments[i];
    PhaseStep(assessments, i);
    hide PhasesOk;
    development', holdout' := development, holdout;
    phase := match assessment.phase case Development => 0 case Holdout => 1 case Window => 2;
    ok := true;
    if phase < previousPhase {
      ok := false;
    } else if assessment.phase == Development {
      if development.Some? { ok := false; }
      development' := Some(assessment);
    } else if assessment.phase == Holdout {
      if development.None? || development.value.status != NominatedStatus || holdout.Some? { ok := false; }
      holdout' := Some(assessment);
    } else {
      if holdout.None? || holdout.value.status != Pass { ok := false; }
    }
  }

  /** A window assessment names a recorded revision and its sealed sources. */
  method CheckSource(ms: seq<Manifest>, manifests: map<Digest, Manifest>, a: Assessment) returns (ok: bool)
    requires DistinctDigests(ms) && IndexOf(manifests, ms) && a.windowManifestDigest.Some?
    ensures ok <==> Seals(ms, a)
  {
    SealLookup(ms, manifests, a);
    var digest := a.windowManifestDigest.value;
    return digest in manifests && a.traceSetDigest == manifests[digest].traceSetDigest
           && a.evaluatorSetDigest == manifests[digest].evaluatorSetDigest;
  }

  /** Past the first two, an accepted prefix ends with a window assessment. */
  lemma LaterIsWindow(assessments: seq<Assessment>, i: nat)
    requires i < |assessments| && PhasesOk(assessments[..i + 1])
    ensures assessments[i].phase == Window <==> i >= 2
  {
    var read := assessments[..i + 1];
    assert read[i] == assessments[i];
  }

  lemma AcceptedPrefix(assessments: seq<Assessment>, i: nat)
    requires i <= |assessments| && PhasesOk(assessments)
    ensures PhasesOk(assessments[..i])
  {
    var read := assessments[..i];
    assert forall j :: 0 <= j < i ==> read[j] == assessments[j];
  }

  lemma RejectedAt(s: Snapshot, i: nat)
    requires i < |s.assessments|
    ensures !PhasesOk(s.assessments[..i + 1]) ==> !AssessmentsOk(s)
    ensures s.assessments[i].protocolDigest != s.protocolDigest ==> !AssessmentsOk(s)
    ensures i >= 2 && !Seals(AllRevisions(s.windows), s.assessments[i]) ==> !AssessmentsOk(s)
  {
    if PhasesOk(s.assessments) { AcceptedPrefix(s.assessments, i + 1); }
    hide PhasesOk, Seals, AllRevisions, DistinctDecisions;
    assert s.assessments[i] in s.assessments;
  }

  /** The first i assessments pass: fresh digests, bound protocol, phase order, sealed sources. */
  ghost predicate WalkOk(s: Snapshot, i: nat, digests: set<Digest>) {
    && i <= |s.assessments| && (forall d :: d in digests <==> exists j :: 0 <= j < i && s.assessments[j].decisionDigest == d)
    && DistinctDecisions(s.assessments[..i]) && PhasesOk(s.assessments[..i])
    && (forall j :: 0 <= j < i ==> s.assessments[j].protocolDigest == s.protocolDigest)
    && forall j :: 2 <= j < i ==> Seals(AllRevisions(s.windows), s.assessments[j])
  }

  lemma WalkStart(s: Snapshot)
    ensures WalkOk(s, 0, {})
  {
  }

  /** One more assessment: what lets the walk continue, and that anything else refuses the snapshot. */
  lemma WalkStep(s: Snapshot, i: nat, digests: set<Digest>)
    requires WalkOk(s, i, digests) && i < |s.assessments|
    ensures var a := s.assessments[i];
            var fine := && a.decisionDigest !in digests && a.protocolDigest == s.protocolDigest && PhasesOk(s.assessments[..i + 1])
                        && (i >= 2 ==> Seals(AllRevisions(s.windows), a));
            if fine then WalkOk(s, i + 1, digests + {a.decisionDigest}) else !AssessmentsOk(s)
    ensures PhasesOk(s.assessments[..i])
  {
    DecisionStep(s.assessments, i);
    RejectedAt(s, i);
    hide PhasesOk, Seals, AllRevisions, DistinctDecisions;
  }

  lemma WalkEnd(s: Snapshot, digests: set<Digest>)
    requires WalkOk(s, |s.assessments|, digests)
    ensures AssessmentsOk(s)
  {
    assert s.assessments[..|s.assessments|] == s.assessments;
    hide PhasesOk, Seals, AllRevisions, DistinctDecisions;
  }

  /** The assessment walk: unique decisions, phase order and sealed sources. */
  method CheckAssessments(s: Snapshot, manifests: map<Digest, Manifest>)
    returns (ok: bool, development: Option<Assessment>, holdout: Option<Assessment>)
    requires SnapshotSchema(s) && DistinctDigests(AllRevisions(s.windows))
    requires IndexOf(manifests, AllRevisions(s.windows))
    ensures ok <==> AssessmentsOk(s)
    ensures ok ==> development == if |s.assessments| > 0 then Some(s.assessments[0]) else None
    ensures ok ==> holdout == if |s.assessments| > 1 then Some(s.assessments[1]) else None
  {
    var digests: set<Digest> := {};
    var previousPhase := -1;
    ok, development, holdout := true, None, None;
    WalkStart(s);
    WindowsProjected(s);
    hide PhasesOk, Seals, AllRevisions, IndexOf, DistinctDigests, SnapshotSchema, WalkOk, AssessmentsOk;
    for i := 0 to |s.assessments|
      invariant WalkOk(s, i, digests) && Remembered(s.assessments, i, previousPhase, development, holdout)
    {
      var assessment := s.assessments[i];
      WalkStep(s, i, digests);
      if assessment.decisionDigest in digests { return false, development, holdout; }
      digests := digests + {assessment.decisionDigest};
      if assessment.protocolDigest != s.protocolDigest { return false, development, holdout; }
      ok, previousPhase, development, holdout := CheckPhase(s.assessments, i, previousPhase, development, holdout);
      if !ok { return; }
      LaterIsWindow(s.assessments, i);
      if assessment.phase == Window {
        assert assessment in s.assessments;
        ok := CheckSource(AllRevisions(s.windows), manifests, assessment);
        if !ok { return; }
      }
    }
    WalkEnd(s, digests);
    ok := true;
  }

  lemma SealLookup(ms: seq<Manifest>, manifests: map<Digest, Manifest>, a: Assessment)
    requires DistinctDigests(ms) && a.windowManifestDigest.Some?
    requires IndexOf(manifests, ms)
    ensures Seals(ms, a) <==>
            && a.windowManifestDigest.value in manifests
            && a.traceSetDigest == manifests[a.windowManifestDigest.value].traceSetDigest
            && a.evaluatorSetDigest == manifests[a.windowManifestDigest.value].evaluatorSetDigest
  {
    var d := a.windowManifestDigest.value;
    if Seals(ms, a) {
      var m :| m in ms && a.windowManifestDigest == Some(m.manifestDigest)
               && a.traceSetDigest == m.traceSetDigest && a.evaluatorSetDigest == m.evaluatorSetDigest;
      assert m in manifests.Values;
      var e :| e in manifests && manifests[e] == m;
      assert e == d;
    }
    if d in manifests { assert manifests[d] in manifests.Values; }
  }

  /** The whole validator decides exactly ValidSnapshot. */
  method ValidateSnapshot(s: Snapshot) returns (ok: bool)
    ensures ok <==> ValidSnapshot(s)
  {
    if !SnapshotSchema(s) { return false; }
    if !IdentityOk(s) || !TimeOk(s) { return false; }
    var windowsFine, manifests := CheckWindows(s);
    if !windowsFine { return false; }
    var assessmentsFine, development, holdout := CheckAssessments(s, manifests);
    if !assessmentsFine { return false; }
    assert development.Some? && development.value.status == NominatedStatus <==> Nominates(s);
    assert holdout.Some? && holdout.value.status == Pass <==> HoldoutPassed(s);
    return PolicyOk(s) && EvidenceOk(s) && DeploymentOk(s) && StaleOk(s) && StateOk(s);
  }
}
