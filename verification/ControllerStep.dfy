/** One controller event: envelope, fact guards, next snapshot, and when revalidation can still refuse it. */
module ControllerStep {
  import opened Wrappers
  import opened Sorting
  import opened ControllerModel
  import opened ControllerValidator

  datatype Rejection =
    | MalformedSnapshot | MalformedEvent | EnvelopeMismatch | TerminalState | WrongState
    | UnauthenticSource | SplicedIdentity | BrokenLineage | TimeOrder | Revalidation | ConflictingDuplicate

  /** Projections of the authentic in-process decisions, by decision digest. */
  type Sources = map<Digest, Assessment>

  predicate AuthenticProjection(a: Assessment, sources: Sources) {
    a.decisionDigest in sources && sources[a.decisionDigest] == a
  }

  predicate ExpirySafe(f: Fact) {
    f.ProtocolExpiryObserved? || f.IdentityDriftRecorded? || f.ControllerRetired?
  }

  /** assertEventEnvelope. */
  predicate EnvelopeOk(s: Snapshot, e: EventBody) {
    && e.controllerId == s.controllerId && e.studyId == s.studyId && e.protocolDigest == s.protocolDigest
    && e.sequence == s.sequence + 1
    && e.predecessor == s.lastEventId
    && (s.lastEventAt.Some? ==> s.lastEventAt.value <= e.occurredAt)
    && s.createdAt <= e.occurredAt
    && (!ExpirySafe(e.fact) ==> e.occurredAt < s.expiresAt)
    && (!ExpirySafe(e.fact) && s.selectedPolicy.Some? ==> e.occurredAt < s.selectedPolicy.value.expiresAt)
  }

  // ----- stale reasons

  function Distinct(xs: seq<Slug>): seq<Slug> {
    if xs == [] then []
    else
      var front := Distinct(xs[..|xs| - 1]);
      if xs[|xs| - 1] in front then front else front + [xs[|xs| - 1]]
  }

  function AppendReason(reasons: seq<Slug>, reason: Slug): seq<Slug> {
    Sort(Distinct(reasons + [reason]), ByKey((r: Slug) => r))
  }

  lemma {:induction false} DistinctIsSet(xs: seq<Slug>)
    ensures (set x | x in Distinct(xs)) == (set x | x in xs)
    ensures |Distinct(xs)| == |set x | x in xs|
  {
    if xs != [] {
      var front, last := xs[..|xs| - 1], xs[|xs| - 1];
      DistinctIsSet(front);
      assert xs == front + [last];
      assert (set x | x in xs) == (set x | x in front) + {last};
      assert last in Distinct(front) <==> last in (set x | x in front);
    }
  }

  lemma DistinctMembers(xs: seq<Slug>, x: Slug)
    ensures x in Distinct(xs) <==> x in xs
  {
    DistinctIsSet(xs);
    assert x in Distinct(xs) <==> x in (set y | y in Distinct(xs));
    assert x in xs <==> x in (set y | y in xs);
  }

  lemma AppendReasonMembers(reasons: seq<Slug>, reason: Slug, x: Slug)
    ensures x in AppendReason(reasons, reason) <==> x in reasons || x == reason
  {
    var all := Distinct(reasons + [reason]);
    SortPermutes(all, ByKey((r: Slug) => r));
    DistinctMembers(reasons + [reason], x);
    assert x in AppendReason(reasons, reason) <==> x in multiset(AppendReason(reasons, reason));
    assert x in all <==> x in multiset(all);
  }

  lemma AppendReasonSize(reasons: seq<Slug>, reason: Slug)
    ensures |AppendReason(reasons, reason)| == |set r | r in reasons + [reason]|
    ensures AppendReason(reasons, reason) != []
  {
    DistinctIsSet(reasons + [reason]);
    SortPermutes(Distinct(reasons + [reason]), ByKey((r: Slug) => r));
    AppendReasonMembers(reasons, reason, reason);
  }

  const ASSESSMENT_STALE: Slug := [97, 115, 115, 101, 115, 115, 109, 101, 110, 116, 45, 115, 116, 97, 108, 101]
  const PROTOCOL_EXPIRED: Slug := [112, 114, 111, 116, 111, 99, 111, 108, 45, 101, 120, 112, 105, 114, 101, 100]

  // ----- window ledgers

  /** First ledger with the identity. */
  function FindLedger(ws: seq<Ledger>, id: Slug): (r: Option<nat>)
    ensures r.Some? ==> r.value < |ws| && ws[r.value].windowId == id
    ensures r.None? ==> forall l :: l in ws ==> l.windowId != id
  {
    if ws == [] then None
    else if ws[0].windowId == id then Some(0)
    else
      var r := FindLedger(ws[1..], id);
      if r.None? then None else Some(r.value + 1)
  }

  /** applyWindowProjection. */
  function ApplyWindow(ws: seq<Ledger>, m: Manifest): Result<seq<Ledger>, Rejection> {
    var k := FindLedger(ws, m.windowId);
    if k.None? then
      if m.revision != 1 || m.predecessor.Some? then Err(BrokenLineage)
      else Ok(Sort(ws + [Ledger(m.windowId, [m])], ByKey((l: Ledger) => l.windowId)))
    else if |ws[k.value].revisions| == 0 then Err(MalformedSnapshot)
    else
      var latest := LastRevision(ws[k.value]);
      if m.revision != latest.revision + 1 then Err(BrokenLineage)
      else if !Continues(latest, m) then Err(BrokenLineage)
      else Ok(seq(|ws|, i requires 0 <= i < |ws| =>
                    if ws[i].windowId == m.windowId then Ledger(ws[i].windowId, ws[i].revisions + [m]) else ws[i]))
  }

  // ----- facts

  function LatestWindow(s: Snapshot, id: Slug): Option<Manifest> {
    var k := FindLedger(s.windows, id);
    if k.None? || |s.windows[k.value].revisions| == 0 then None else Some(LastRevision(s.windows[k.value]))
  }

  function Advanced(s: Snapshot, e: Event): Snapshot {
    s.(sequence := e.body.sequence, lastEventId := Some(e.eventId), lastEventAt := Some(e.body.occurredAt))
  }

  function Record(s: Snapshot, a: Assessment, state: State): Snapshot {
    s.(assessments := s.assessments + [a], state := state)
  }

  function RecordStale(s: Snapshot, a: Assessment): Snapshot {
    Record(s, a, State.Stale).(staleReasons := AppendReason(s.staleReasons, ASSESSMENT_STALE))
  }

  /** The switch of applyParsedControllerEvent, guard by guard; `s` is the snapshot before the event. */
  function ApplyFact(s: Snapshot, e: Event, sources: Sources): Result<Snapshot, Rejection> {
    var next := Advanced(s, e);
    match e.body.fact
    case ProtocolRegistered(createdAt, expiresAt) =>
      if !s.state.Draft? then Err(WrongState)
      else if createdAt != s.createdAt || expiresAt != s.expiresAt then Err(SplicedIdentity)
      else Ok(next.(state := Registered))
    case CollectionStarted(id) =>
      if !s.state.Registered? then Err(WrongState)
      else Ok(next.(collectionId := Some(id), state := Collecting))
    case DevelopmentEvidenceReady(evidence) =>
      if !s.state.Collecting? then Err(WrongState)
      else Ok(next.(evidence := Some(evidence), state := DevReady))
    case DevelopmentAssessmentRecorded(a) =>
      if !s.state.DevReady? then Err(WrongState)
      else if !AuthenticProjection(a, sources) then Err(UnauthenticSource)
      else if a.protocolDigest != s.protocolDigest || s.evidence.None? || !SameEvidence(a, s.evidence.value) then
        Err(SplicedIdentity)
      else if a.status == NominatedStatus then
        Ok(Record(next, a, Nominated).(selectedPolicy := a.selectedPolicy))
      else if a.status == StaleStatus then Ok(RecordStale(next, a))
      else Ok(Record(next, a, State.Hold))
    case ShadowAssessmentStarted(frozen) =>
      if !s.state.Nominated? then Err(WrongState)
      else if s.selectedPolicy.None? || frozen != s.selectedPolicy.value.policyDigest then Err(SplicedIdentity)
      else Ok(next.(state := ShadowAssessing))
    case HoldoutAssessmentRecorded(a) =>
      if !s.state.ShadowAssessing? then Err(WrongState)
      else if !AuthenticProjection(a, sources) then Err(UnauthenticSource)
      else if a.protocolDigest != s.protocolDigest || s.selectedPolicy.None? || a.selectedPolicy != s.selectedPolicy then
        Err(SplicedIdentity)
      else if a.status == Pass then Ok(Record(next, a, HoldoutConfirmed))
      else if a.status == StaleStatus then Ok(RecordStale(next, a))
      else Ok(Record(next, a, State.Hold))
    case WindowManifestRecorded(m) =>
      if s.state !in {ShadowAssessing, HoldoutConfirmed, PromotionRecommended, Monitoring} then Err(WrongState)
      else if m.protocolDigest != s.protocolDigest || s.selectedPolicy.None?
              || m.frozenPolicyDigest != s.selectedPolicy.value.policyDigest then Err(SplicedIdentity)
      else if e.body.occurredAt < m.watermark then Err(TimeOrder)
      else
        var windows :- ApplyWindow(s.windows, m);
        Ok(next.(windows := windows,
                 state := if s.state.PromotionRecommended? then HoldoutConfirmed else s.state))
    case WindowAssessmentRecorded(id, a) =>
      if s.state !in {HoldoutConfirmed, Monitoring} then Err(WrongState)
      else if !AuthenticProjection(a, sources) then Err(UnauthenticSource)
      else
        var latest := LatestWindow(s, id);
        if latest.None? then Err(SplicedIdentity)
        else if a.protocolDigest != s.protocolDigest || s.selectedPolicy.None? || a.selectedPolicy != s.selectedPolicy then
          Err(SplicedIdentity)
        else if a.windowManifestDigest != Some(latest.value.manifestDigest)
                || a.traceSetDigest != latest.value.traceSetDigest
                || a.evaluatorSetDigest != latest.value.evaluatorSetDigest then Err(SplicedIdentity)
        else if a.status == Pass then
          Ok(Record(next, a, if s.state.Monitoring? then Monitoring else PromotionRecommended))
        else if a.status == StaleStatus then Ok(RecordStale(next, a))
        else if s.state.Monitoring? && a.status == HoldStatus then Ok(Record(next, a, RollbackRecommended))
        else Ok(Record(next, a, State.Hold))
    case DeploymentObserved(o) =>
      if !s.state.PromotionRecommended? then Err(WrongState)
      else if s.selectedPolicy.None? || o.policyDigest != s.selectedPolicy.value.policyDigest then Err(SplicedIdentity)
      else if e.body.occurredAt < o.observedAt || (s.lastEventAt.Some? && o.observedAt < s.lastEventAt.value) then
        Err(TimeOrder)
      else Ok(next.(deployment := Some(o), state := Monitoring))
    case IdentityDriftRecorded(_, _, _, reason) =>
      Ok(next.(staleReasons := AppendReason(s.staleReasons, reason), state := State.Stale))
    case ProtocolExpiryObserved(asOf) =>
      if asOf != e.body.occurredAt || asOf < s.expiresAt then Err(TimeOrder)
      else Ok(next.(staleReasons := AppendReason(s.staleReasons, PROTOCOL_EXPIRED), state := State.Stale))
    case ControllerRetired(_) =>
      Ok(next.(state := Retired))
  }

  /** Everything checked before the next snapshot is built. */
  predicate Guarded(s: Snapshot, e: Event, sources: Sources, h: Hashes) {
    && ValidSnapshot(s) && EventValid(e, h)
    && EnvelopeOk(s, e.body) && !s.state.Retired?
    && ApplyFact(s, e, sources).Ok?
  }

  /** applyParsedControllerEvent: guards, then revalidation of the snapshot it built. */
  function Apply(s: Snapshot, e: Event, sources: Sources, h: Hashes): Result<Snapshot, Rejection> {
    if !ValidSnapshot(s) then Err(MalformedSnapshot)
    else if !EventValid(e, h) then Err(MalformedEvent)
    else if !EnvelopeOk(s, e.body) then Err(EnvelopeMismatch)
    else if s.state.Retired? then Err(TerminalState)
    else
      var next :- ApplyFact(s, e, sources);
      if ValidSnapshot(next) then Ok(next) else Err(Revalidation)
  }

  /** An applied event is authentic, extends the chain by one, and leaves an accepted snapshot. */
  lemma ApplyAdvances(s: Snapshot, e: Event, sources: Sources, h: Hashes)
    requires Apply(s, e, sources, h).Ok?
    ensures ValidSnapshot(s) && EventValid(e, h) && EnvelopeOk(s, e.body)
    ensures var n := Apply(s, e, sources, h).value;
            && ValidSnapshot(n) && n.sequence == s.sequence + 1
            && n.lastEventId == Some(e.eventId) && n.lastEventAt == Some(e.body.occurredAt)
            && n.controllerId == s.controllerId && n.studyId == s.studyId && n.protocolDigest == s.protocolDigest
            && n.createdAt == s.createdAt && n.expiresAt == s.expiresAt
  {
    hide ValidSnapshot, EventValid, ApplyFact;
    if ApplyFact(s, e, sources).Ok? { FactKeepsIdentity(s, e, sources); }
  }

  lemma FactKeepsIdentity(s: Snapshot, e: Event, sources: Sources)
    requires ApplyFact(s, e, sources).Ok?
    ensures var n := ApplyFact(s, e, sources).value;
            && n.sequence == e.body.sequence && n.lastEventId == Some(e.eventId) && n.lastEventAt == Some(e.body.occurredAt)
            && n.controllerId == s.controllerId && n.studyId == s.studyId && n.protocolDigest == s.protocolDigest
            && n.createdAt == s.createdAt && n.expiresAt == s.expiresAt
  {
    hide ApplyWindow, LatestWindow, AppendReason, AuthenticProjection, SameEvidence;
  }

  // ----- when revalidation refuses

  predicate FreshDecision(s: Snapshot, a: Assessment) {
    forall b :: b in s.assessments ==> b.decisionDigest != a.decisionDigest
  }

  predicate FreshManifest(s: Snapshot, m: Manifest) {
    forall r :: r in AllRevisions(s.windows) ==> r.manifestDigest != m.manifestDigest
  }

  predicate ReasonFits(s: Snapshot, reason: Slug) {
    |set r | r in s.staleReasons + [reason]| <= MAX_STALE_REASONS
  }

  /** What the guards leave open: fresh digests, policy validity, first window start and size caps. */
  predicate Residual(s: Snapshot, e: EventBody) {
    match e.fact
    case DevelopmentAssessmentRecorded(a) =>
      && NominationRule(a)
      && (a.selectedPolicy.Some? ==>
            && s.createdAt <= a.selectedPolicy.value.issuedAt <= e.occurredAt
            && a.selectedPolicy.value.expiresAt == s.expiresAt)
    case HoldoutAssessmentRecorded(a) => FreshDecision(s, a)
    case WindowManifestRecorded(m) =>
      && FreshManifest(s, m)
      && |AllRevisions(s.windows)| < MAX_WINDOW_REVISIONS
      && (FindLedger(s.windows, m.windowId).None? ==> |s.windows| < MAX_WINDOWS && s.createdAt <= m.eventTimeStart)
    case WindowAssessmentRecorded(_, a) => FreshDecision(s, a) && |s.assessments| < MAX_ASSESSMENTS
    case IdentityDriftRecorded(_, _, _, reason) => ReasonFits(s, reason)
    case ProtocolExpiryObserved(_) => ReasonFits(s, PROTOCOL_EXPIRED)
    case _ => true
  }
}
