/** What every run of the controller keeps: it fails closed, freezes its policy and never drops evidence. */
module ControllerRuns {
  import opened Wrappers
  import opened ControllerModel
  import opened ControllerValidator
  import opened ControllerStep
  import opened ControllerClosure
  import opened ControllerReplay

  predicate Favourable(a: Assessment) { a.status == NominatedStatus || a.status == Pass }

  /** Only the last assessment can be unfavourable, and then the controller is closed. */
  predicate FailsClosed(s: Snapshot) {
    && (forall i :: 0 <= i < |s.assessments| - 1 ==> Favourable(s.assessments[i]))
    && (s.assessments != [] && !Favourable(s.assessments[|s.assessments| - 1]) ==>
          s.state in {State.Hold, RollbackRecommended, State.Stale, Retired})
  }

  /** Evidence only accumulates: assessments and revisions stay, the policy and the deployment never change once set. */
  predicate Accumulates(s: Snapshot, n: Snapshot) {
    && s.assessments <= n.assessments
    && (forall m :: m in AllRevisions(s.windows) ==> m in AllRevisions(n.windows))
    && (s.selectedPolicy.Some? ==> n.selectedPolicy == s.selectedPolicy)
    && (s.deployment.Some? ==> n.deployment == s.deployment)
    && (s.collectionId.Some? ==> n.collectionId == s.collectionId)
    && (s.evidence.Some? ==> n.evidence == s.evidence)
    && (forall r :: r in s.staleReasons ==> r in n.staleReasons)
  }

  /** Closed states admit no way back. */
  predicate StaysClosed(s: Snapshot, n: Snapshot) {
    && (s.state.Retired? ==> n == s)
    && (s.state.Stale? ==> n.state.Stale? || n.state.Retired?)
    && (s.state.Hold? || s.state.RollbackRecommended? ==> n.state == s.state || n.state.Stale? || n.state.Retired?)
  }

  lemma StateRules(s: Snapshot)
    requires ValidSnapshot(s)
    ensures StateOk(s) && LedgersSound(s.windows) && DistinctDigests(AllRevisions(s.windows))
  {
  }

  predicate Closed(state: State) { state in {State.Hold, RollbackRecommended, State.Stale, Retired} }

  /** How one event can change the assessment list and close the controller. */
  lemma StepAssessments(s: Snapshot, e: Event, sources: Sources, h: Hashes)
    requires StateOk(s) && ApplyFact(s, e, sources).Ok? && !s.state.Retired?
    ensures var n := ApplyFact(s, e, sources).value;
            || (n.assessments == s.assessments && (Closed(s.state) ==> n.state.Stale? || n.state.Retired?))
            || (exists a :: && n.assessments == s.assessments + [a]
                            && (!Favourable(a) ==> Closed(n.state))
                            && (s.assessments == [] || !Closed(s.state)))
  {
    hide ApplyWindow, LatestWindow, AppendReason, ManifestSchema, PolicySchema, SameEvidence;
    var n := ApplyFact(s, e, sources).value;
    match e.body.fact {
      case DevelopmentAssessmentRecorded(a) => assert n.assessments == s.assessments + [a];
      case HoldoutAssessmentRecorded(a) => assert n.assessments == s.assessments + [a];
      case WindowAssessmentRecorded(_, a) => assert n.assessments == s.assessments + [a];
      case _ =>
    }
  }

  lemma StepFailsClosed(s: Snapshot, e: Event, sources: Sources, h: Hashes)
    requires Apply(s, e, sources, h).Ok? && FailsClosed(s)
    ensures FailsClosed(Apply(s, e, sources, h).value)
  {
    hide ApplyFact, ValidSnapshot, EventValid, EnvelopeOk;
    ApplyAdvances(s, e, sources, h);
    StateRules(s);
    StepAssessments(s, e, sources, h);
  }

  lemma ReasonsKept(reasons: seq<Slug>, reason: Slug)
    ensures forall r :: r in reasons ==> r in AppendReason(reasons, reason)
  {
    forall r | r in reasons ensures r in AppendReason(reasons, reason) { AppendReasonMembers(reasons, reason, r); }
  }

  lemma RevisionsKept(ws: seq<Ledger>, m: Manifest)
    requires LedgersSound(ws) && DistinctDigests(AllRevisions(ws)) && ApplyWindow(ws, m).Ok?
    ensures forall r :: r in AllRevisions(ws) ==> r in AllRevisions(ApplyWindow(ws, m).value)
  {
    SealingLedgers(ws, m);
    GrowsFacts(AllRevisions(ws), AllRevisions(ApplyWindow(ws, m).value), m);
  }

  lemma StepAccumulates(s: Snapshot, e: Event, sources: Sources, h: Hashes)
    requires Apply(s, e, sources, h).Ok?
    ensures Accumulates(s, Apply(s, e, sources, h).value)
  {
    hide ValidSnapshot, EventValid, EnvelopeOk, LedgersSound, DistinctDigests, AllRevisions, ApplyWindow, LatestWindow;
    hide AppendReason, AuthenticProjection, SameEvidence;
    ApplyAdvances(s, e, sources, h);
    StateRules(s);
    match e.body.fact {
      case WindowManifestRecorded(m) => RevisionsKept(s.windows, m);
      case IdentityDriftRecorded(_, _, _, reason) => ReasonsKept(s.staleReasons, reason);
      case ProtocolExpiryObserved(_) => ReasonsKept(s.staleReasons, PROTOCOL_EXPIRED);
      case _ => ReasonsKept(s.staleReasons, ASSESSMENT_STALE);
    }
  }

  lemma StepStaysClosed(s: Snapshot, e: Event, sources: Sources, h: Hashes)
    requires Apply(s, e, sources, h).Ok?
    ensures StaysClosed(s, Apply(s, e, sources, h).value)
  {
    hide ValidSnapshot, EventValid, EnvelopeOk;
  }

  /** A recommended promotion was recommended by the event just before, against the head of a sealed ledger. */
  ghost predicate PromotionIsFresh(l: Live) {
    l.snapshot.state.PromotionRecommended? ==>
      && l.snapshot.lastEventId.Some? && l.snapshot.lastEventId.value in l.history
      && var fact := l.history[l.snapshot.lastEventId.value].body.fact;
         && fact.WindowAssessmentRecorded? && fact.projection.status == Pass
         && LatestWindow(l.snapshot, fact.windowId).Some?
         && fact.projection.windowManifestDigest == Some(LatestWindow(l.snapshot, fact.windowId).value.manifestDigest)
  }

  /** The invariant of every reachable live snapshot. */
  ghost predicate Sound(l: Live, h: Hashes) {
    Complete(l, h) && FailsClosed(l.snapshot) && PromotionIsFresh(l)
  }

  lemma StepPromotion(s: Snapshot, e: Event, sources: Sources, h: Hashes)
    requires Apply(s, e, sources, h).Ok? && Apply(s, e, sources, h).value.state.PromotionRecommended?
    ensures e.body.fact.WindowAssessmentRecorded? && e.body.fact.projection.status == Pass
    ensures var id := e.body.fact.windowId;
            var n := Apply(s, e, sources, h).value;
            && LatestWindow(n, id).Some?
            && e.body.fact.projection.windowManifestDigest == Some(LatestWindow(n, id).value.manifestDigest)
  {
    hide ValidSnapshot, EventValid, EnvelopeOk;
  }

  lemma SoundStep(l: Live, e: Event, sources: Sources, h: Hashes)
    requires Sound(l, h) && ReplayEvent(l, e, sources, h).Ok?
    ensures Sound(ReplayEvent(l, e, sources, h).value, h)
    ensures Accumulates(l.snapshot, ReplayEvent(l, e, sources, h).value.snapshot)
    ensures StaysClosed(l.snapshot, ReplayEvent(l, e, sources, h).value.snapshot)
  {
    hide Apply, ValidSnapshot, EventValid, FailsClosed, LatestWindow;
    HistoryStep(l, e, sources, h);
    var next := Apply(l.snapshot, e, sources, h);
    if next.Ok? {
      ApplyAdvances(l.snapshot, e, sources, h);
      StepFailsClosed(l.snapshot, e, sources, h);
      StepAccumulates(l.snapshot, e, sources, h);
      StepStaysClosed(l.snapshot, e, sources, h);
      if next.value.state.PromotionRecommended? { StepPromotion(l.snapshot, e, sources, h); }
    }
  }

  lemma {:induction false} SoundFold(l: Live, events: seq<Event>, sources: Sources, h: Hashes)
    requires Sound(l, h) && Fold(l, events, sources, h).Ok?
    ensures Sound(Fold(l, events, sources, h).value, h)
    ensures Accumulates(l.snapshot, Fold(l, events, sources, h).value.snapshot)
    ensures StaysClosed(l.snapshot, Fold(l, events, sources, h).value.snapshot)
    decreases |events|
  {
    hide Sound, ReplayEvent, Accumulates, StaysClosed;
    if events == [] {
      NothingAccumulates(l.snapshot);
    } else {
      SoundStep(l, events[0], sources, h);
      var next := ReplayEvent(l, events[0], sources, h).value;
      SoundFold(next, events[1..], sources, h);
      Accumulation(l.snapshot, next.snapshot, Fold(l, events, sources, h).value.snapshot);
    }
  }

  lemma NothingAccumulates(s: Snapshot)
    ensures Accumulates(s, s) && StaysClosed(s, s)
  {
  }

  lemma Accumulation(s: Snapshot, m: Snapshot, n: Snapshot)
    requires Accumulates(s, m) && Accumulates(m, n) && StaysClosed(s, m) && StaysClosed(m, n)
    ensures Accumulates(s, n) && StaysClosed(s, n)
  {
  }

  /** Fail-closed runs: from genesis, over any log, every reachable snapshot keeps the invariant. */
  lemma RunsFailClosed(g: Live, events: seq<Event>, sources: Sources, h: Hashes)
    requires IsGenesis(g) && Fold(g, events, sources, h).Ok?
    ensures ValidSnapshot(Fold(g, events, sources, h).value.snapshot)
    ensures FailsClosed(Fold(g, events, sources, h).value.snapshot)
  {
    assert Sound(g, h);
    SoundFold(g, events, sources, h);
  }

  /** Extending a run never changes its policy, its deployment or any recorded evidence, and never reopens it. */
  lemma RunsAccumulate(g: Live, before: seq<Event>, after: seq<Event>, sources: Sources, h: Hashes)
    requires IsGenesis(g) && Fold(g, before + after, sources, h).Ok?
    ensures Fold(g, before, sources, h).Ok?
    ensures var s, n := Fold(g, before, sources, h).value.snapshot, Fold(g, before + after, sources, h).value.snapshot;
            Accumulates(s, n) && StaysClosed(s, n)
  {
    assert Sound(g, h);
    FoldComposes(g, before, after, sources, h);
    SoundFold(g, before, sources, h);
    SoundFold(Fold(g, before, sources, h).value, after, sources, h);
  }

  /** A deployment observation directly follows a passing assessment of a ledger's head revision. */
  lemma DeploymentFollowsPass(g: Live, log: seq<Event>, e: Event, sources: Sources, h: Hashes)
    requires IsGenesis(g) && e.body.fact.DeploymentObserved?
    requires Unique(log + [e]) == log + [e] && Fold(g, log + [e], sources, h).Ok?
    ensures Fold(g, log, sources, h).Ok? && log != []
    ensures log[|log| - 1].body.fact.WindowAssessmentRecorded?
    ensures log[|log| - 1].body.fact.projection.status == Pass
    ensures var s := Fold(g, log, sources, h).value.snapshot;
            var fact := log[|log| - 1].body.fact;
            && LatestWindow(s, fact.windowId).Some?
            && fact.projection.windowManifestDigest == Some(LatestWindow(s, fact.windowId).value.manifestDigest)
  {
    assert Sound(g, h);
    hide Apply, ValidSnapshot, EventValid, HistoryOk, LatestWindow;
    FoldComposes(g, log, [e], sources, h);
    var l := Fold(g, log, sources, h).value;
    FoldOne(l, e, sources, h);
    SoundFold(g, log, sources, h);
    AcceptedLogIsChain(g, log, sources, h);
    UniqueFront(log, e);
    HistoryFold(g, log, sources, h);
    DeploymentStep(l, e, sources, h, log);
    assert log[|log| - 1] in log;
  }

  lemma UniqueFront(log: seq<Event>, e: Event)
    requires Unique(log + [e]) == log + [e]
    ensures Unique(log) == log && e !in log
  {
    assert (log + [e])[..|log|] == log;
    UniqueShorter(log);
    assert |Unique(log + [e])| == |log| + 1;
    assert Unique(log) + [e] == log + [e];
    assert Unique(log) == (Unique(log) + [e])[..|log|];
    UniqueMembers(log, e);
  }

  lemma {:induction false} UniqueShorter(log: seq<Event>)
    ensures |Unique(log)| <= |log|
  {
    if log != [] { UniqueShorter(log[..|log| - 1]); }
  }

  lemma PromotionIsLate(s: Snapshot)
    requires StateOk(s) && s.state.PromotionRecommended?
    ensures s.sequence > 0
  {
  }

  lemma DeploymentStep(l: Live, e: Event, sources: Sources, h: Hashes, log: seq<Event>)
    requires Ran(l, log, h) && e !in log && e.body.fact.DeploymentObserved?
    requires forall x :: x in log ==> x.eventId in l.history && l.history[x.eventId] == x
    requires ReplayEvent(l, e, sources, h).Ok?
    ensures l.snapshot.state.PromotionRecommended? && log != []
    ensures l.snapshot.lastEventId == Some(log[|log| - 1].eventId)
  {
    hide ValidSnapshot, EventValid, EnvelopeOk, StateOk;
    StateRules(l.snapshot);
    if l.snapshot.state.PromotionRecommended? { PromotionIsLate(l.snapshot); }
    forall x | x in log ensures x.eventId != e.eventId {
      assert l.history[x.eventId] == x;
    }
  }
}
