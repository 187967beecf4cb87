/** Replay of event logs with duplicate tolerance, live appends, and checkpoint resumption. */
module ControllerReplay {
  import opened Wrappers
  import opened ControllerModel
  import opened ControllerValidator
  import opened ControllerStep

  /** A live snapshot with the events it has seen, keyed by event ID (canonical JSON is injective). */
  datatype Live = Live(snapshot: Snapshot, history: map<Digest, Event>)

  predicate IsGenesis(l: Live) {
    ValidSnapshot(l.snapshot) && l.snapshot.sequence == 0 && l.history == map[]
  }

  /** One iteration of the replay loop. */
  function ReplayEvent(l: Live, e: Event, sources: Sources, h: Hashes): Result<Live, Rejection> {
    if !EventValid(e, h) then Err(MalformedEvent)
    else if e.eventId in l.history then
      if l.history[e.eventId] != e then Err(ConflictingDuplicate) else Ok(l)
    else if l.snapshot.lastEventId == Some(e.eventId) && e.body.sequence == l.snapshot.sequence then
      Ok(l.(history := l.history[e.eventId := e]))
    else
      var next :- Apply(l.snapshot, e, sources, h);
      Ok(Live(next, l.history[e.eventId := e]))
  }

  /** The loop as a fold. */
  function Fold(l: Live, events: seq<Event>, sources: Sources, h: Hashes): Result<Live, Rejection>
    decreases |events|
  {
    if events == [] then Ok(l)
    else
      var next :- ReplayEvent(l, events[0], sources, h);
      Fold(next, events[1..], sources, h)
  }

  /** replayFromSnapshot. */
  function ReplayFrom(l: Live, events: seq<Event>, sources: Sources, h: Hashes): Result<Live, Rejection> {
    if |events| > MAX_EVENTS then Err(MalformedEvent)
    else if !ValidSnapshot(l.snapshot) then Err(MalformedSnapshot)
    else Fold(l, events, sources, h)
  }

  method ReplayFromSnapshot(initial: Live, events: seq<Event>, sources: Sources, h: Hashes)
    returns (r: Result<Live, Rejection>)
    ensures r == ReplayFrom(initial, events, sources, h)
  {
    if |events| > MAX_EVENTS { return Err(MalformedEvent); }
    if !ValidSnapshot(initial.snapshot) { return Err(MalformedSnapshot); }
    var snapshot, seen := initial.snapshot, initial.history;
    var i := 0;
    while i < |events|
      invariant 0 <= i <= |events|
      invariant Fold(Live(snapshot, seen), events[i..], sources, h) == Fold(initial, events, sources, h)
    {
      var event := events[i];
      assert events[i..][1..] == events[i + 1..];
      i := i + 1;
      if !EventValid(event, h) { return Err(MalformedEvent); }
      if event.eventId in seen {
        if seen[event.eventId] != event { return Err(ConflictingDuplicate); }
        continue;
      }
      if snapshot.lastEventId == Some(event.eventId) && event.body.sequence == snapshot.sequence {
        seen := seen[event.eventId := event];
        continue;
      }
      var next := Apply(snapshot, event, sources, h);
      if next.Err? { return Err(next.error); }
      snapshot := next.value;
      seen := seen[event.eventId := event];
    }
    return Ok(Live(snapshot, seen));
  }

  // ----- composition

  lemma {:induction false} FoldComposes(l: Live, a: seq<Event>, b: seq<Event>, sources: Sources, h: Hashes)
    ensures Fold(l, a + b, sources, h) ==
            var middle := Fold(l, a, sources, h);
            if middle.Err? then middle else Fold(middle.value, b, sources, h)
    decreases |a|
  {
    hide Apply;
    if a == [] {
      assert a + b == b;
    } else {
      assert (a + b)[1..] == a[1..] + b;
      var next := ReplayEvent(l, a[0], sources, h);
      if next.Ok? { FoldComposes(next.value, a[1..], b, sources, h); }
    }
  }

  lemma FoldOne(l: Live, e: Event, sources: Sources, h: Hashes)
    ensures Fold(l, [e], sources, h) == ReplayEvent(l, e, sources, h)
  {
    assert [e][1..] == [];
  }

  // ----- what a live snapshot's history records

  /** Seen events are authentic, no later than the snapshot, and contain the last event. */
  ghost predicate HistoryOk(l: Live, h: Hashes) {
    && ValidSnapshot(l.snapshot)
    && (forall id :: id in l.history ==>
          && EventValid(l.history[id], h) && l.history[id].eventId == id
          && l.history[id].body.sequence <= l.snapshot.sequence
          && (l.history[id].body.sequence == l.snapshot.sequence <==> l.snapshot.lastEventId == Some(id)))
  }

  lemma HistoryStep(l: Live, e: Event, sources: Sources, h: Hashes)
    requires HistoryOk(l, h) && ReplayEvent(l, e, sources, h).Ok?
    ensures var n := ReplayEvent(l, e, sources, h).value;
            && HistoryOk(n, h)
            && e.eventId in n.history && n.history[e.eventId] == e
            && (forall id :: id in l.history ==> id in n.history && n.history[id] == l.history[id])
            && l.snapshot.sequence <= n.snapshot.sequence
  {
    hide Apply, ValidSnapshot;
    if Apply(l.snapshot, e, sources, h).Ok? { ApplyAdvances(l.snapshot, e, sources, h); }
  }

  lemma {:induction false} HistoryFold(l: Live, events: seq<Event>, sources: Sources, h: Hashes)
    requires HistoryOk(l, h) && Fold(l, events, sources, h).Ok?
    ensures var n := Fold(l, events, sources, h).value;
            && HistoryOk(n, h)
            && (forall e :: e in events ==> e.eventId in n.history && n.history[e.eventId] == e)
            && (forall id :: id in l.history ==> id in n.history && n.history[id] == l.history[id])
    decreases |events|
  {
    hide Apply, ReplayEvent, HistoryOk;
    if events != [] {
      var next := ReplayEvent(l, events[0], sources, h).value;
      HistoryStep(l, events[0], sources, h);
      HistoryFold(next, events[1..], sources, h);
      assert forall e :: e in events <==> e == events[0] || e in events[1..];
    }
  }

  /** Re-inserting an already applied event anywhere later changes nothing. */
  lemma DuplicateVanishes(l: Live, before: seq<Event>, d: Event, after: seq<Event>, sources: Sources, h: Hashes)
    requires HistoryOk(l, h) && d in before
    ensures Fold(l, before + [d] + after, sources, h) == Fold(l, before + after, sources, h)
  {
    hide Apply, HistoryOk, Fold;
    FoldComposes(l, before, after, sources, h);
    FoldComposes(l, before + [d], after, sources, h);
    FoldComposes(l, before, [d], sources, h);
    if Fold(l, before, sources, h).Ok? {
      var middle := Fold(l, before, sources, h).value;
      HistoryFold(l, before, sources, h);
      FoldOne(middle, d, sources, h);
      SkipsSeen(middle, d, sources, h);
    }
  }

  lemma SkipsSeen(l: Live, d: Event, sources: Sources, h: Hashes)
    requires HistoryOk(l, h) && d.eventId in l.history && l.history[d.eventId] == d
    ensures ReplayEvent(l, d, sources, h) == Ok(l)
  {
  }

  /** First occurrences, in order. */
  function Unique(events: seq<Event>): seq<Event> {
    if events == [] then []
    else
      var front := Unique(events[..|events| - 1]);
      if events[|events| - 1] in front then front else front + [events[|events| - 1]]
  }

  lemma {:induction false} UniqueMembers(events: seq<Event>, e: Event)
    ensures e in Unique(events) <==> e in events
  {
    if events != [] {
      UniqueMembers(events[..|events| - 1], e);
      UniqueMembers(events[..|events| - 1], events[|events| - 1]);
      assert events == events[..|events| - 1] + [events[|events| - 1]];
    }
  }

  /** A log means what its first occurrences mean. */
  lemma {:induction false} UniqueSuffices(l: Live, events: seq<Event>, sources: Sources, h: Hashes)
    requires HistoryOk(l, h)
    ensures Fold(l, events, sources, h) == Fold(l, Unique(events), sources, h)
  {
    if events != [] {
      var n := |events| - 1;
      var front, last := events[..n], events[n];
      assert events == front + [last];
      UniqueSuffices(l, front, sources, h);
      UniqueMembers(front, last);
      FoldComposes(l, front, [last], sources, h);
      FoldComposes(l, Unique(front), [last], sources, h);
      if last in Unique(front) {
        DuplicateVanishes(l, front, last, [], sources, h);
        assert front + [last] + [] == events && front + [] == front;
      }
    }
  }

  // ----- live appends

  /** The event appendLiveFact builds. */
  function NextEvent(s: Snapshot, fact: Fact, occurredAt: Time, h: Hashes): Event {
    var body := EventBody(s.controllerId, s.studyId, s.protocolDigest, s.sequence + 1, s.lastEventId, occurredAt, fact, h.fact(fact));
    Event(body, h.event(body))
  }

  function AppendLive(l: Live, fact: Fact, occurredAt: Time, sources: Sources, h: Hashes): Result<(Event, Live), Rejection> {
    var e := NextEvent(l.snapshot, fact, occurredAt, h);
    var next :- Apply(l.snapshot, e, sources, h);
    Ok((e, Live(next, l.history[e.eventId := e])))
  }

  datatype Command = Command(fact: Fact, occurredAt: Time, sources: Sources)

  /** A session of live commands and the log it leaves. */
  function Session(l: Live, commands: seq<Command>, h: Hashes): Result<(seq<Event>, Live), Rejection>
    decreases |commands|
  {
    if commands == [] then Ok(([], l))
    else
      var first :- AppendLive(l, commands[0].fact, commands[0].occurredAt, commands[0].sources, h);
      var rest :- Session(first.1, commands[1..], h);
      Ok(([first.0] + rest.0, rest.1))
  }

  ghost predicate Covers(all: Sources, part: Sources) {
    forall d :: d in part ==> d in all && all[d] == part[d]
  }

  lemma SourcesOnlyAdmit(s: Snapshot, e: Event, part: Sources, all: Sources, h: Hashes)
    requires Apply(s, e, part, h).Ok?
    ensures Covers(all, part) ==> Apply(s, e, all, h) == Apply(s, e, part, h)
    ensures Apply(s, e, all, h).Ok? ==> Apply(s, e, all, h) == Apply(s, e, part, h)
  {
    hide ValidSnapshot, EventValid, EnvelopeOk;
  }

  /** Live appends equal replay of their own log. */
  lemma {:induction false} SessionReplays(l: Live, commands: seq<Command>, sources: Sources, h: Hashes)
    requires HistoryOk(l, h) && CollisionFreeEvents(h)
    requires forall c :: c in commands ==> Covers(sources, c.sources)
    requires Session(l, commands, h).Ok?
    ensures Fold(l, Session(l, commands, h).value.0, sources, h) == Ok(Session(l, commands, h).value.1)
    decreases |commands|
  {
    hide Apply, ValidSnapshot;
    if commands != [] {
      var c := commands[0];
      var first := AppendLive(l, c.fact, c.occurredAt, c.sources, h).value;
      var e := first.0;
      ApplyAdvances(l.snapshot, e, c.sources, h);
      forall id | id in l.history ensures id != e.eventId {
        assert l.history[id].body.sequence != e.body.sequence;
      }
      SourcesOnlyAdmit(l.snapshot, e, c.sources, sources, h);
      assert ReplayEvent(l, e, sources, h) == Ok(first.1);
      HistoryStep(l, e, sources, h);
      SessionReplays(first.1, commands[1..], sources, h);
      var log := Session(l, commands, h).value.0;
      assert log[1..] == Session(first.1, commands[1..], h).value.0;
    }
  }

  // ----- hash-chain uniqueness

  predicate Link(events: seq<Event>, i: nat, h: Hashes)
    requires i < |events|
  {
    && events[i].body.sequence == i + 1
    && events[i].body.predecessor == (if i == 0 then None else Some(events[i - 1].eventId))
    && events[i].eventId == h.event(events[i].body)
  }

  /** Consecutive events from sequence 1, each naming its predecessor. */
  predicate Chain(events: seq<Event>, h: Hashes) {
    forall i :: 0 <= i < |events| ==> Link(events, i, h)
  }

  function LastId(events: seq<Event>): Option<Digest> {
    if events == [] then None else Some(events[|events| - 1].eventId)
  }

  /** Once a run has seen its own last event, replay only skips duplicates or applies the successor. */
  ghost predicate Complete(l: Live, h: Hashes) {
    && HistoryOk(l, h)
    && (l.snapshot.lastEventId.Some? ==> l.snapshot.lastEventId.value in l.history)
  }

  /** A run whose distinct events are `log`, in order. */
  ghost predicate Ran(n: Live, log: seq<Event>, h: Hashes) {
    && Chain(log, h) && Complete(n, h)
    && n.snapshot.sequence == |log| && n.snapshot.lastEventId == LastId(log)
    && (forall id :: id in n.history <==> exists e :: e in log && e.eventId == id)
  }

  lemma ChainGrows(log: seq<Event>, e: Event, h: Hashes)
    requires Chain(log, h)
    requires e.body.sequence == |log| + 1 && e.body.predecessor == LastId(log) && e.eventId == h.event(e.body)
    ensures Chain(log + [e], h)
  {
    var all := log + [e];
    forall i | 0 <= i < |all| ensures Link(all, i, h) {
      if i < |log| { assert Link(log, i, h); }
    }
  }

  lemma RunStep(n: Live, log: seq<Event>, e: Event, sources: Sources, h: Hashes)
    requires Ran(n, log, h) && HistoryOk(n, h) && ReplayEvent(n, e, sources, h).Ok?
    requires forall x :: x in log ==> x.eventId in n.history && n.history[x.eventId] == x
    ensures Ran(ReplayEvent(n, e, sources, h).value, if e in log then log else log + [e], h)
  {
    hide Apply, ValidSnapshot, FactSchema;
    HistoryStep(n, e, sources, h);
    if e !in log {
      assert e.eventId !in n.history;
      ApplyAdvances(n.snapshot, e, sources, h);
      ChainGrows(log, e, h);
      assert forall x :: x in log + [e] <==> x in log || x == e;
    }
  }

  /** An accepted log from genesis, without its duplicates, is the chain the run applied. */
  lemma {:induction false} AcceptedLogIsChain(g: Live, events: seq<Event>, sources: Sources, h: Hashes)
    requires IsGenesis(g) && Fold(g, events, sources, h).Ok?
    ensures Ran(Fold(g, events, sources, h).value, Unique(events), h)
  {
    if events != [] {
      hide Apply, ValidSnapshot, EventValid;
      var k := |events| - 1;
      var front, last := events[..k], events[k];
      assert events == front + [last];
      FoldComposes(g, front, [last], sources, h);
      var middle := Fold(g, front, sources, h).value;
      FoldOne(middle, last, sources, h);
      AcceptedLogIsChain(g, front, sources, h);
      HistoryFold(g, front, sources, h);
      forall x | x in Unique(front) ensures x.eventId in middle.history && middle.history[x.eventId] == x {
        UniqueMembers(front, x);
      }
      RunStep(middle, Unique(front), last, sources, h);
    }
  }

  lemma ChainPrefix(xs: seq<Event>, m: nat, h: Hashes)
    requires Chain(xs, h) && m <= |xs|
    ensures Chain(xs[..m], h)
  {
    var front := xs[..m];
    forall i | 0 <= i < |front| ensures Link(front, i, h) {
      assert Link(xs, i, h);
    }
  }

  lemma {:induction false} ChainsMeet(xs: seq<Event>, ys: seq<Event>, h: Hashes)
    requires CollisionFreeEvents(h) && Chain(xs, h) && Chain(ys, h)
    requires xs != [] && ys != [] && xs[|xs| - 1].eventId == ys[|ys| - 1].eventId
    ensures xs == ys
  {
    var m, n := |xs| - 1, |ys| - 1;
    assert Link(xs, m, h) && Link(ys, n, h);
    assert xs[m].body == ys[n].body;
    assert m == n;
    if m > 0 {
      ChainPrefix(xs, m, h);
      ChainPrefix(ys, m, h);
      ChainsMeet(xs[..m], ys[..m], h);
    }
    assert xs == xs[..m] + [xs[m]] && ys == ys[..m] + [ys[m]];
  }

  lemma {:induction false} FoldIgnoresSources(l: Live, events: seq<Event>, a: Sources, b: Sources, h: Hashes)
    requires Fold(l, events, a, h).Ok? && Fold(l, events, b, h).Ok?
    ensures Fold(l, events, a, h) == Fold(l, events, b, h)
    decreases |events|
  {
    hide Apply;
    if events != [] {
      if Apply(l.snapshot, events[0], a, h).Ok? { SourcesOnlyAdmit(l.snapshot, events[0], a, b, h); }
      FoldIgnoresSources(ReplayEvent(l, events[0], a, h).value, events[1..], a, b, h);
    }
  }

  /** Two accepted logs from one genesis with the same last event ID are the same run. */
  lemma HashChainUnique(g: Live, xs: seq<Event>, ys: seq<Event>, a: Sources, b: Sources, h: Hashes)
    requires IsGenesis(g) && CollisionFreeEvents(h)
    requires Fold(g, xs, a, h).Ok? && Fold(g, ys, b, h).Ok?
    requires Fold(g, xs, a, h).value.snapshot.lastEventId == Fold(g, ys, b, h).value.snapshot.lastEventId
    ensures Unique(xs) == Unique(ys)
    ensures Fold(g, xs, a, h) == Fold(g, ys, b, h)
  {
    hide Apply, ValidSnapshot, EventValid, HistoryOk;
    AcceptedLogIsChain(g, xs, a, h);
    AcceptedLogIsChain(g, ys, b, h);
    if Unique(xs) != [] { ChainsMeet(Unique(xs), Unique(ys), h); }
    UniqueSuffices(g, xs, a, h);
    UniqueSuffices(g, ys, b, h);
    FoldIgnoresSources(g, Unique(xs), a, b, h);
  }

  /** No other order of an accepted log's events is accepted. */
  lemma OrderIsForced(g: Live, xs: seq<Event>, ys: seq<Event>, a: Sources, b: Sources, h: Hashes)
    requires IsGenesis(g) && Fold(g, xs, a, h).Ok? && Fold(g, ys, b, h).Ok?
    requires forall e :: e in xs <==> e in ys
    ensures Unique(xs) == Unique(ys)
  {
    hide Apply, ValidSnapshot, EventValid, HistoryOk;
    AcceptedLogIsChain(g, xs, a, h);
    AcceptedLogIsChain(g, ys, b, h);
    var us, vs := Unique(xs), Unique(ys);
    forall e ensures e in us <==> e in vs { UniqueMembers(xs, e); UniqueMembers(ys, e); }
    forall i | 0 <= i < |us| ensures i < |vs| && us[i] == vs[i] {
      assert us[i] in vs;
      var j :| 0 <= j < |vs| && vs[j] == us[i];
      assert Link(us, i, h) && Link(vs, j, h);
    }
    if vs != [] {
      assert vs[|vs| - 1] in us;
      var j :| 0 <= j < |us| && us[j] == vs[|vs| - 1];
      assert Link(us, j, h) && Link(vs, |vs| - 1, h);
    }
  }

  // ----- checkpoints

  datatype Verification =
    | CompletePrefix(genesis: Live, events: seq<Event>, sources: Sources)
    | PinnedAnchor(controllerId: Slug, protocolDigest: Digest, sequence: nat, lastEventId: Option<Digest>, snapshotDigest: Digest)

  /** verifyControllerCheckpoint: a complete prefix restores the history, a pinned anchor starts with none. */
  function VerifyCheckpoint(checkpoint: Snapshot, v: Verification, h: Hashes): Result<Live, Rejection> {
    if !ValidSnapshot(checkpoint) then Err(MalformedSnapshot)
    else match v
      case CompletePrefix(genesis, events, sources) =>
        if genesis.snapshot.sequence != 0 then Err(MalformedSnapshot)
        else
          var replayed :- ReplayFrom(genesis, events, sources, h);
          if replayed.snapshot != checkpoint then Err(SplicedIdentity) else Ok(replayed)
      case PinnedAnchor(controllerId, protocolDigest, sequence, lastEventId, digest) =>
        if controllerId != checkpoint.controllerId || protocolDigest != checkpoint.protocolDigest
           || sequence != checkpoint.sequence || lastEventId != checkpoint.lastEventId
           || digest != h.snapshot(checkpoint) then Err(SplicedIdentity)
        else Ok(Live(checkpoint, map[]))
  }

  /** resumeController. */
  function Resume(checkpoint: Snapshot, v: Verification, suffix: seq<Event>, sources: Sources, h: Hashes): Result<Live, Rejection> {
    var live :- VerifyCheckpoint(checkpoint, v, h);
    ReplayFrom(live, suffix, sources, h)
  }

  /** Resuming from a verified prefix equals replaying prefix and suffix from genesis, exactly within the event bound. */
  lemma ResumeCompletes(g: Live, prefix: seq<Event>, suffix: seq<Event>, sources: Sources, h: Hashes)
    requires IsGenesis(g) && ReplayFrom(g, prefix, sources, h).Ok?
    ensures var checkpoint := ReplayFrom(g, prefix, sources, h).value.snapshot;
            var resumed := Resume(checkpoint, CompletePrefix(g, prefix, sources), suffix, sources, h);
            var full := ReplayFrom(g, prefix + suffix, sources, h);
            if |prefix| + |suffix| <= MAX_EVENTS then resumed == full else full.Err?
  {
    FoldComposes(g, prefix, suffix, sources, h);
    AcceptedLogIsChain(g, prefix, sources, h);
  }


  /** `l` is the full run and `p` the run from the pinned anchor `a`, after the same suffix events. */
  ghost predicate Shadows(a: Live, l: Live, p: Live, h: Hashes) {
    && Complete(a, h) && HistoryOk(l, h) && p.snapshot == l.snapshot
    && (forall id :: id in l.history <==> id in a.history || id in p.history)
    && (forall id :: id in a.history ==> l.history[id] == a.history[id])
    && (forall id :: id in p.history ==> l.history[id] == p.history[id])
    && (forall id :: id in a.history && id in p.history ==> a.snapshot.lastEventId == Some(id))
    && a.snapshot.sequence <= l.snapshot.sequence
    && (a.snapshot.sequence == l.snapshot.sequence ==>
          && l.snapshot == a.snapshot
          && forall id :: id in p.history ==> a.snapshot.lastEventId == Some(id) && id in a.history)
    && (a.snapshot.sequence < l.snapshot.sequence ==>
          l.snapshot.lastEventId.Some? && l.snapshot.lastEventId.value in p.history
          && l.snapshot.lastEventId.value !in a.history)
  }

  /** Old events the pinned run can still absorb: only the anchored event, seen before anything new. */
  ghost predicate Absorbable(a: Live, l: Live, p: Live, suffix: seq<Event>) {
    forall e :: e in suffix && e.eventId in a.history ==>
      && a.snapshot.lastEventId == Some(e.eventId)
      && (e.eventId in p.history
          || (l.snapshot.sequence == a.snapshot.sequence && suffix[0].eventId == e.eventId))
  }

  lemma NewEventShadows(a: Live, l: Live, p: Live, e: Event, sources: Sources, h: Hashes)
    requires Shadows(a, l, p, h) && e.eventId !in a.history
    ensures ReplayEvent(p, e, sources, h).Ok? <==> ReplayEvent(l, e, sources, h).Ok?
    ensures ReplayEvent(l, e, sources, h).Ok? ==>
              Shadows(a, ReplayEvent(l, e, sources, h).value, ReplayEvent(p, e, sources, h).value, h)
    ensures ReplayEvent(l, e, sources, h).Ok? ==>
              var q := ReplayEvent(p, e, sources, h).value;
              forall id :: id in a.history ==> (id in q.history <==> id in p.history)
    ensures ReplayEvent(l, e, sources, h).Ok? ==> a.snapshot.sequence < ReplayEvent(l, e, sources, h).value.snapshot.sequence
  {
    hide Apply, ValidSnapshot, EventValid, HistoryOk;
    if ReplayEvent(l, e, sources, h).Ok? { HistoryStep(l, e, sources, h); }
    if Apply(l.snapshot, e, sources, h).Ok? { ApplyAdvances(l.snapshot, e, sources, h); }
  }

  lemma OldEventShadows(a: Live, l: Live, p: Live, e: Event, sources: Sources, h: Hashes)
    requires Shadows(a, l, p, h) && CollisionFreeEvents(h) && e.eventId in a.history
    ensures ReplayEvent(l, e, sources, h).Ok? ==> ReplayEvent(l, e, sources, h).value == l
    ensures ReplayEvent(p, e, sources, h).Ok? <==>
            && ReplayEvent(l, e, sources, h).Ok?
            && a.snapshot.lastEventId == Some(e.eventId)
            && (e.eventId in p.history || l.snapshot.sequence == a.snapshot.sequence)
    ensures ReplayEvent(p, e, sources, h).Ok? ==>
              && Shadows(a, l, ReplayEvent(p, e, sources, h).value, h)
              && e.eventId in ReplayEvent(p, e, sources, h).value.history
  {
    hide Apply, ValidSnapshot, FactSchema;
    if EventValid(e, h) { assert a.history[e.eventId].body == e.body; }
    if Apply(p.snapshot, e, sources, h).Ok? { ApplyAdvances(p.snapshot, e, sources, h); }
  }

  lemma AbsorbableAfterOld(a: Live, l: Live, p: Live, q: Live, e: Event, rest: seq<Event>)
    requires e.eventId in a.history && a.snapshot.lastEventId == Some(e.eventId) && e.eventId in q.history
    requires e.eventId in p.history || l.snapshot.sequence == a.snapshot.sequence
    requires forall id :: id in p.history ==> id in q.history
    ensures Absorbable(a, l, q, rest) <==> Absorbable(a, l, p, [e] + rest)
  {
    assert ([e] + rest)[0] == e;
    assert forall x :: x in [e] + rest <==> x == e || x in rest;
  }

  lemma AbsorbableAfterNew(a: Live, l: Live, p: Live, m: Live, q: Live, e: Event, rest: seq<Event>)
    requires e.eventId !in a.history && a.snapshot.sequence < m.snapshot.sequence
    requires forall id :: id in a.history ==> (id in q.history <==> id in p.history)
    ensures Absorbable(a, m, q, rest) <==> Absorbable(a, l, p, [e] + rest)
  {
    assert ([e] + rest)[0] == e;
    assert forall x :: x in [e] + rest <==> x == e || x in rest;
  }

  lemma {:induction false} PinnedShadowsFull(a: Live, l: Live, p: Live, suffix: seq<Event>, sources: Sources, h: Hashes)
    requires Shadows(a, l, p, h) && CollisionFreeEvents(h)
    ensures Fold(p, suffix, sources, h).Ok? <==> Fold(l, suffix, sources, h).Ok? && Absorbable(a, l, p, suffix)
    ensures Fold(p, suffix, sources, h).Ok? ==>
              Fold(p, suffix, sources, h).value.snapshot == Fold(l, suffix, sources, h).value.snapshot
    decreases |suffix|
  {
    if suffix != [] {
      hide ReplayEvent, Shadows, Absorbable, CollisionFreeEvents, Fold;
      FoldFirst(l, suffix, sources, h);
      FoldFirst(p, suffix, sources, h);
      var e, rest := suffix[0], suffix[1..];
      assert suffix == [e] + rest;
      var full, pinned := ReplayEvent(l, e, sources, h), ReplayEvent(p, e, sources, h);
      if e.eventId in a.history {
        OldEventShadows(a, l, p, e, sources, h);
        if Absorbable(a, l, p, suffix) { OldEventBlocks(a, l, p, suffix); }
        if pinned.Ok? {
          PinnedShadowsFull(a, l, pinned.value, rest, sources, h);
          AbsorbableAfterOld(a, l, p, pinned.value, e, rest);
        }
      } else {
        NewEventShadows(a, l, p, e, sources, h);
        if pinned.Ok? {
          PinnedShadowsFull(a, full.value, pinned.value, rest, sources, h);
          AbsorbableAfterNew(a, l, p, full.value, pinned.value, e, rest);
        }
      }
    } else {
      assert Absorbable(a, l, p, suffix);
    }
  }

  lemma FoldFirst(l: Live, events: seq<Event>, sources: Sources, h: Hashes)
    requires events != []
    ensures Fold(l, events, sources, h) ==
            var next := ReplayEvent(l, events[0], sources, h);
            if next.Err? then next else Fold(next.value, events[1..], sources, h)
  {
    hide ReplayEvent;
  }

  lemma OldEventBlocks(a: Live, l: Live, p: Live, suffix: seq<Event>)
    requires suffix != [] && suffix[0].eventId in a.history && Absorbable(a, l, p, suffix)
    ensures a.snapshot.lastEventId == Some(suffix[0].eventId)
    ensures suffix[0].eventId in p.history || l.snapshot.sequence == a.snapshot.sequence
  {
    assert suffix[0] in suffix;
  }

  /** A pinned anchor resumes exactly like the full run, except that it refuses replays from before the anchor. */
  lemma PinnedResume(g: Live, prefix: seq<Event>, suffix: seq<Event>, sources: Sources, h: Hashes)
    requires IsGenesis(g) && CollisionFreeEvents(h) && |suffix| <= MAX_EVENTS
    requires Fold(g, prefix, sources, h).Ok?
    ensures var a := Fold(g, prefix, sources, h).value;
            var s := a.snapshot;
            var anchor := PinnedAnchor(s.controllerId, s.protocolDigest, s.sequence, s.lastEventId, h.snapshot(s));
            var resumed, full := Resume(s, anchor, suffix, sources, h), Fold(g, prefix + suffix, sources, h);
            && (resumed.Ok? <==> full.Ok? && forall e :: e in suffix && (exists x :: x in prefix && x.eventId == e.eventId) ==>
                                   s.lastEventId == Some(e.eventId) && suffix[0].eventId == e.eventId)
            && (resumed.Ok? ==> resumed.value.snapshot == full.value.snapshot)
  {
    hide Apply, ValidSnapshot, EventValid, Fold, HistoryOk;
    FoldComposes(g, prefix, suffix, sources, h);
    AcceptedLogIsChain(g, prefix, sources, h);
    var a := Fold(g, prefix, sources, h).value;
    forall id ensures id in a.history <==> exists x :: x in prefix && x.eventId == id {
      if id in a.history {
        var x :| x in Unique(prefix) && x.eventId == id;
        UniqueMembers(prefix, x);
      }
      forall x | x in prefix && x.eventId == id ensures id in a.history { UniqueMembers(prefix, x); }
    }
    AnchorShadows(a, h);
    PinnedShadowsFull(a, a, Live(a.snapshot, map[]), suffix, sources, h);
    AnchorAbsorbs(a, suffix);
    PinnedStart(g, prefix, sources, h);
  }

  lemma AnchorShadows(a: Live, h: Hashes)
    requires Complete(a, h)
    ensures Shadows(a, a, Live(a.snapshot, map[]), h)
  {
    hide HistoryOk;
  }

  lemma AnchorAbsorbs(a: Live, suffix: seq<Event>)
    ensures Absorbable(a, a, Live(a.snapshot, map[]), suffix) <==>
            forall e :: e in suffix && e.eventId in a.history ==>
              a.snapshot.lastEventId == Some(e.eventId) && suffix[0].eventId == e.eventId
  {
  }

  lemma PinnedStart(g: Live, prefix: seq<Event>, sources: Sources, h: Hashes)
    requires IsGenesis(g) && Fold(g, prefix, sources, h).Ok?
    ensures ValidSnapshot(Fold(g, prefix, sources, h).value.snapshot)
  {
    hide Apply, ValidSnapshot, EventValid, Fold;
    AcceptedLogIsChain(g, prefix, sources, h);
  }
}
