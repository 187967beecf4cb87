/** The assumptions about hashing can be met: injective encodings of everything the program hashes. */
module CollisionFreedom {
  import opened CodeUnits
  import opened Numbers
  import opened Wrappers
  import opened EvidenceModel
  import C = AssessmentContract
  import P = AssessmentPolicies

  // ----- trees as text

  datatype Tree = Leaf(n: nat) | Fork(left: Tree, right: Tree)

  function Unary(n: nat): Text { if n == 0 then [1] else [0] + Unary(n - 1) }

  function Code(t: Tree): Text {
    match t
    case Leaf(n) => Unary(n)
    case Fork(left, right) => [2] + Code(left) + Code(right)
  }

  lemma {:induction false} UnaryTells(m: nat, n: nat, x: Text, y: Text)
    requires Unary(m) + x == Unary(n) + y
    ensures m == n && x == y
  {
    var a, b := Unary(m) + x, Unary(n) + y;
    assert a[0] == Unary(m)[0] && b[0] == Unary(n)[0];
    if m == 0 {
      assert a[1..] == x && b[1..] == y;
    } else {
      assert a[1..] == Unary(m - 1) + x && b[1..] == Unary(n - 1) + y;
      UnaryTells(m - 1, n - 1, x, y);
    }
  }

  /** No code is a proper prefix of another, so a tree can be read back. */
  lemma {:induction false} CodeTells(a: Tree, b: Tree, x: Text, y: Text)
    requires Code(a) + x == Code(b) + y
    ensures a == b && x == y
  {
    assert (Code(a) + x)[0] == Code(a)[0] && (Code(b) + y)[0] == Code(b)[0];
    if a.Leaf? {
      UnaryTells(a.n, b.n, x, y);
    } else {
      assert (Code(a) + x)[1..] == Code(a.left) + (Code(a.right) + x);
      assert (Code(b) + y)[1..] == Code(b.left) + (Code(b.right) + y);
      CodeTells(a.left, b.left, Code(a.right) + x, Code(b.right) + y);
      CodeTells(a.right, b.right, x, y);
    }
  }

  lemma CodeInjective(a: Tree, b: Tree)
    requires Code(a) == Code(b)
    ensures a == b
  {
    assert Code(a) + [] == Code(b) + [];
    CodeTells(a, b, [], []);
  }

  // ----- values as trees

  ghost predicate Injective<T(!new)>(f: T -> Tree) { forall a, b :: f(a) == f(b) ==> a == b }

  function OfUnit(u: Unit): Tree { Leaf(u) }
  function OfInt(i: int): Tree { Leaf(if i >= 0 then 2 * i else -2 * i - 1) }
  function OfBool(b: bool): Tree { Leaf(if b then 1 else 0) }

  function OfSeq<T>(f: T -> Tree, xs: seq<T>): Tree {
    if xs == [] then Leaf(0) else Fork(f(xs[0]), OfSeq(f, xs[1..]))
  }

  function OfOption<T>(f: T -> Tree, o: Option<T>): Tree { if o.None? then Leaf(0) else Fork(Leaf(1), f(o.value)) }

  function OfText(t: Text): Tree { OfSeq(OfUnit, t) }
  function OfTexts(ts: seq<Text>): Tree { OfSeq(OfText, ts) }
  function OfOptionalText(o: Option<Text>): Tree { OfOption(OfText, o) }
  function OfOptionalInt(o: Option<int>): Tree { OfOption(OfInt, o) }

  /** A numerator and a denominator of the number. */
  ghost function Parts(x: Number): (r: (int, int))
    ensures r.1 > 0 && Ratio(r.0, r.1) == x
  {
    assert Rational(x);
    var p: int, q: int :| q > 0 && Ratio(p, q) == x;
    (p, q)
  }

  ghost function OfNumber(x: Number): Tree { Fork(OfInt(Parts(x).0), OfInt(Parts(x).1)) }

  ghost function OfOptionalNumber(o: Option<Number>): Tree { if o.None? then Leaf(0) else Fork(Leaf(1), OfNumber(o.value)) }

  lemma {:induction false} SeqTells<T(!new)>(f: T -> Tree, xs: seq<T>, ys: seq<T>)
    requires Injective(f) && OfSeq(f, xs) == OfSeq(f, ys)
    ensures xs == ys
  {
    if xs != [] {
      SeqTells(f, xs[1..], ys[1..]);
      assert xs == [xs[0]] + xs[1..] && ys == [ys[0]] + ys[1..];
    }
  }

  lemma TextTells(a: Text, b: Text)
    requires OfText(a) == OfText(b)
    ensures a == b
  {
    SeqTells(OfUnit, a, b);
  }

  lemma TextsTell()
    ensures Injective(OfText) && Injective(OfOptionalText) && Injective(OfTexts)
  {
    forall a, b | OfText(a) == OfText(b) ensures a == b { TextTells(a, b); }
    forall a, b | OfTexts(a) == OfTexts(b) ensures a == b { SeqTells(OfText, a, b); }
  }

  lemma NumberTells(x: Number, y: Number)
    requires OfNumber(x) == OfNumber(y)
    ensures x == y
  {
    assert Parts(x).0 == Parts(y).0 && Parts(x).1 == Parts(y).1;
  }

  // ----- traces and evidence

  function OfSplit(s: Split): Tree { Leaf(match s case Dev => 0 case Holdout => 1 case Online => 2) }
  function OfStatus(s: Status): Tree { Leaf(match s case Success => 0 case Failure => 1 case Aborted => 2) }
  function OfOutput(o: OutputId): Tree { OfTexts([o.algorithm, o.keyId, o.value]) }
  function OfOptionalOutput(o: Option<OutputId>): Tree { OfOption(OfOutput, o) }

  ghost function OfCost(c: AttemptCost): Tree {
    match c
    case MeasuredCost(x) => Fork(Leaf(0), OfNumber(x))
    case ModeledCost(x) => Fork(Leaf(1), OfNumber(x))
    case ReportedCost(x) => Fork(Leaf(2), OfNumber(x))
    case NoCost => Leaf(0)
  }

  /** The fields of a record by type. */
  function TraceTexts(t: Trace): seq<Text> {
    [t.studyId, t.protocolDigest, t.traceId, t.caseId, t.replicateId, t.groupId, t.profileId, t.profileDigest, t.workload, t.routeSignal]
  }

  ghost function OfTrace(t: Trace): Tree {
    Fork(OfTexts(TraceTexts(t)),
    Fork(Fork(OfTexts(t.slices), OfOptionalOutput(t.output)),
    Fork(Fork(OfOptionalText(t.policyDigest), Fork(OfOptionalText(t.windowId), OfOptionalText(t.windowMembership))),
    Fork(Fork(OfNumber(t.weight), OfOptionalNumber(t.routeValue)),
    Fork(Fork(OfSplit(t.split), Fork(OfStatus(t.status), OfBool(t.ambiguous))),
    Fork(Fork(OfInt(t.startedAt), Fork(OfOptionalInt(t.firstToken), OfInt(t.completedAt))),
    OfSeq(OfCost, t.costs)))))))
  }

  lemma OutputsTell()
    ensures Injective(OfOutput) && Injective(OfOptionalOutput)
  {
    TextsTell();
    forall a, b | OfOutput(a) == OfOutput(b) ensures a == b {
      var xs, ys := [a.algorithm, a.keyId, a.value], [b.algorithm, b.keyId, b.value];
      assert xs == ys && xs[0] == ys[0] && xs[1] == ys[1] && xs[2] == ys[2];
    }
  }

  lemma CostsTell(a: seq<AttemptCost>, b: seq<AttemptCost>)
    requires OfSeq(OfCost, a) == OfSeq(OfCost, b)
    ensures a == b
  {
    forall c, d | OfCost(c) == OfCost(d) ensures c == d {
      hide OfNumber;
      if !c.NoCost? { NumberTells(c.amount, d.amount); }
    }
    SeqTells(OfCost, a, b);
  }

  lemma TraceTextsTell(a: Trace, b: Trace)
    requires TraceTexts(a) == TraceTexts(b)
    ensures a.studyId == b.studyId && a.protocolDigest == b.protocolDigest && a.traceId == b.traceId && a.caseId == b.caseId
    ensures a.replicateId == b.replicateId && a.groupId == b.groupId && a.profileId == b.profileId
    ensures a.profileDigest == b.profileDigest && a.workload == b.workload && a.routeSignal == b.routeSignal
  {
    var xs, ys := TraceTexts(a), TraceTexts(b);
    assert xs[0] == ys[0] && xs[1] == ys[1] && xs[2] == ys[2] && xs[3] == ys[3] && xs[4] == ys[4];
    assert xs[5] == ys[5] && xs[6] == ys[6] && xs[7] == ys[7] && xs[8] == ys[8] && xs[9] == ys[9];
  }

  lemma TraceTells(a: Trace, b: Trace)
    requires OfTrace(a) == OfTrace(b)
    ensures a == b
  {
    TextsTell();
    OutputsTell();
    hide OfTexts, OfOutput, OfOptionalText, OfOptionalOutput, OfNumber, OfSeq, TraceTexts;
    TraceTextsTell(a, b);
    NumberTells(a.weight, b.weight);
    if a.routeValue.Some? { NumberTells(a.routeValue.value, b.routeValue.value); }
    CostsTell(a.costs, b.costs);
  }

  function EvidenceTexts(e: Evidence): seq<Text> {
    [e.studyId, e.protocolDigest, e.traceId, e.caseId, e.replicateId, e.profileId, e.keyId]
  }

  function EvaluatorTexts(v: Evaluator): seq<Text> {
    [v.evaluatorId, v.rubricVersion, v.calibrationDigest, v.producerKind, v.producerId, v.producerVersion]
  }

  function OfDeclared(d: Declared): Tree { Leaf(match d case DeclaredAbstained => 0 case DeclaredMissing => 1 case DeclaredInvalid => 2) }

  ghost function OfVerdict(v: Verdict): Tree {
    match v
    case Scored(score, range) => Fork(Leaf(0), Fork(OfNumber(score), Fork(OfNumber(range.0), OfNumber(range.1))))
    case NotScored(kind, reason) => Fork(Leaf(1), Fork(OfDeclared(kind), OfText(reason)))
  }

  ghost function OfEvidence(e: Evidence): Tree {
    Fork(OfTexts(EvidenceTexts(e)),
    Fork(OfTexts(EvaluatorTexts(e.evaluator)),
    Fork(Fork(OfOutput(e.output), OfSplit(e.split)),
    Fork(OfInt(e.producedAt), OfVerdict(e.outcome)))))
  }

  lemma VerdictTells(a: Verdict, b: Verdict)
    requires OfVerdict(a) == OfVerdict(b)
    ensures a == b
  {
    hide OfNumber, OfText;
    if a.Scored? {
      NumberTells(a.score, b.score);
      NumberTells(a.range.0, b.range.0);
      NumberTells(a.range.1, b.range.1);
    } else {
      TextTells(a.reasonCode, b.reasonCode);
    }
  }

  lemma EvidenceTextsTell(a: Evidence, b: Evidence)
    requires EvidenceTexts(a) == EvidenceTexts(b)
    ensures a.studyId == b.studyId && a.protocolDigest == b.protocolDigest && a.traceId == b.traceId && a.caseId == b.caseId
    ensures a.replicateId == b.replicateId && a.profileId == b.profileId && a.keyId == b.keyId
  {
    var xs, ys := EvidenceTexts(a), EvidenceTexts(b);
    assert xs[0] == ys[0] && xs[1] == ys[1] && xs[2] == ys[2] && xs[3] == ys[3] && xs[4] == ys[4] && xs[5] == ys[5] && xs[6] == ys[6];
  }

  lemma EvaluatorTextsTell(a: Evaluator, b: Evaluator)
    requires EvaluatorTexts(a) == EvaluatorTexts(b)
    ensures a == b
  {
    var xs, ys := EvaluatorTexts(a), EvaluatorTexts(b);
    assert xs[0] == ys[0] && xs[1] == ys[1] && xs[2] == ys[2] && xs[3] == ys[3] && xs[4] == ys[4] && xs[5] == ys[5];
  }

  lemma EvidenceTells(a: Evidence, b: Evidence)
    requires OfEvidence(a) == OfEvidence(b)
    ensures a == b
  {
    TextsTell();
    OutputsTell();
    hide OfTexts, OfOutput, OfVerdict, EvidenceTexts, EvaluatorTexts;
    EvidenceTextsTell(a, b);
    EvaluatorTextsTell(a.evaluator, b.evaluator);
    VerdictTells(a.outcome, b.outcome);
  }

  // ----- identities

  function OfTrust(s: TrustStatus): Tree { match s case Trusted => Leaf(0) case Untrusted(status) => Fork(Leaf(1), OfText(status)) }

  function OfContext(c: Context): Tree {
    Fork(Fork(OfText(c.assessedAt), OfText(c.assessmentContextDigest)), Fork(OfText(c.trustPolicyDigest), OfText(c.revocationDigest)))
  }

  function Kind(i: Identity): nat {
    match i
    case TraceBody(_) => 0
    case EvidenceBody(_) => 1
    case TraceJoin(_, _, _, _) => 2
    case LogicalProfile(_, _, _, _) => 3
    case PairOf(_, _, _) => 4
    case TraceProfile(_, _, _) => 5
    case ExecutionOf(_, _) => 6
    case TraceIdOf(_) => 7
    case ContextOf(_) => 8
    case InauthenticSource => 9
    case AuthenticSource(_, _, _, _, _) => 10
    case TraceSet(_) => 11
    case EvaluatorSet(_) => 12
  }

  ghost function Parameters(i: Identity): Tree {
    match i
    case TraceBody(t) => OfTrace(t)
    case EvidenceBody(e) => OfEvidence(e)
    case TraceJoin(p, t, f, o) => Fork(Fork(OfText(p), OfText(t)), Fork(OfText(f), OfOptionalOutput(o)))
    case LogicalProfile(p, c, r, f) => Fork(Fork(OfText(p), OfText(c)), Fork(OfText(r), OfText(f)))
    case PairOf(p, c, r) => Fork(OfText(p), Fork(OfText(c), OfText(r)))
    case TraceProfile(p, t, f) => Fork(OfText(p), Fork(OfText(t), OfText(f)))
    case ExecutionOf(t, j) => Fork(OfText(t), OfText(j))
    case TraceIdOf(t) => OfText(t)
    case ContextOf(c) => OfContext(c)
    case InauthenticSource => Leaf(0)
    case AuthenticSource(d, s, b, c, k) => Fork(Fork(OfText(d), OfTrust(s)), Fork(OfBool(b), Fork(OfContext(c), OfText(k))))
    case TraceSet(ds) => OfTexts(ds)
    case EvaluatorSet(ds) => OfTexts(ds)
  }

  ghost function OfIdentity(i: Identity): Tree { Fork(Leaf(Kind(i)), Parameters(i)) }

  lemma IdentityTells(a: Identity, b: Identity)
    requires OfIdentity(a) == OfIdentity(b)
    ensures a == b
  {
    TextsTell();
    OutputsTell();
    hide OfTexts, OfText, OfOptionalOutput, OfTrace, OfEvidence;
    match a {
      case TraceBody(t) => TraceTells(t, b.trace);
      case EvidenceBody(e) => EvidenceTells(e, b.evidence);
      case _ =>
    }
  }

  // ----- sort keys

  function OfProvenance(p: Provenance): Tree {
    match p
    case NoProvenance => Leaf(0)
    case Verified(s, t, r, k, c) => Fork(Fork(OfTrust(s), OfBool(t)), Fork(OfText(r), Fork(OfText(k), OfContext(c))))
  }

  function OfReason(r: Reason): Tree {
    match r
    case InauthenticReceipt => Leaf(0)
    case IntegrityConflict => Leaf(1)
    case KeyNotPinned => Leaf(2)
    case EvaluatorDrift => Leaf(3)
    case ContextDrift => Leaf(4)
    case PredatesCompletion => Leaf(5)
    case FailedExecution => Leaf(6)
    case OutputMismatch => Leaf(7)
    case NoMatchingTrace => Leaf(8)
    case VerificationStatus(s) => Fork(Leaf(0), OfTrust(s))
    case DeclaredReason(code) => Fork(Leaf(1), OfText(code))
  }

  function OfRow(r: (Text, Provenance)): Tree { Fork(OfText(r.0), OfProvenance(r.1)) }

  function OfKey(k: CompactKey): Tree {
    match k
    case RejectedBy(j, d, r, p) => Fork(Leaf(0), Fork(Fork(OfText(j), OfText(d)), Fork(OfReason(r), OfProvenance(p))))
    case DiagnosticBy(d, t, f, r, p) =>
      Fork(Leaf(1), Fork(Fork(OfOptionalText(d), Fork(OfOptionalText(t), OfOptionalText(f))), Fork(OfReason(r), OfProvenance(p))))
    case MissingBy(e, t, p, r, d) =>
      Fork(Leaf(2), Fork(Fork(OfText(e), OfText(t)), Fork(OfText(p), Fork(OfOptionalText(r), OfOptionalText(d)))))
    case AbstainedBy(e, d, r) => Fork(Leaf(3), Fork(OfText(e), Fork(OfText(d), OfText(r))))
    case DuplicateBy(j, d, n, p) => Fork(Leaf(4), Fork(Fork(OfText(j), OfText(d)), Fork(Leaf(n), OfProvenance(p))))
    case ConflictBy(j, ds, m, rows) => Fork(Leaf(5), Fork(Fork(OfText(j), OfTexts(ds)), Fork(OfBool(m), OfSeq(OfRow, rows))))
    case DuplicateTraceBy(d, t, n) => Fork(Leaf(6), Fork(OfText(d), Fork(OfText(t), Leaf(n))))
    case ConflictTraceBy(a, ds, s) => Fork(Leaf(7), Fork(OfText(a), Fork(OfTexts(ds), OfBool(s))))
    case MissingProfileBy(c, r, ms) => Fork(Leaf(8), Fork(OfText(c), Fork(OfText(r), OfTexts(ms))))
  }

  lemma SourcesTell()
    ensures Injective(OfTrust) && Injective(OfContext)
  {
    TextsTell();
    hide OfText;
  }

  lemma ProvenancesTell()
    ensures Injective(OfProvenance) && Injective(OfReason)
  {
    TextsTell();
    SourcesTell();
    hide OfText, OfTrust, OfContext;
  }

  lemma RowsTell(xs: seq<(Text, Provenance)>, ys: seq<(Text, Provenance)>)
    requires OfSeq(OfRow, xs) == OfSeq(OfRow, ys)
    ensures xs == ys
  {
    TextsTell();
    ProvenancesTell();
    hide OfText, OfProvenance;
    assert Injective(OfRow);
    SeqTells(OfRow, xs, ys);
  }

  lemma KeyTells(a: CompactKey, b: CompactKey)
    requires OfKey(a) == OfKey(b)
    ensures a == b
  {
    TextsTell();
    ProvenancesTell();
    hide OfTexts, OfText, OfOptionalText, OfSeq, OfProvenance, OfReason;
    if a.ConflictBy? { RowsTell(a.rows, b.rows); }
  }

  // ----- policies

  function OfPolicyKind(k: C.PolicyKind): Tree { Leaf(match k case ExpertOnly => 0 case FastOnly => 1 case Cascade => 2) }
  function OfOperator(o: C.Operator): Tree { Leaf(match o case LessThan => 0 case AtMost => 1 case MoreThan => 2 case AtLeast => 3) }

  ghost function OfPredicate(p: C.Predicate): Tree {
    Fork(Fork(OfText(p.signal), OfText(p.routeTo)), Fork(OfOperator(p.operator), OfNumber(p.threshold)))
  }

  ghost function OfPolicy(p: C.PolicyBody): Tree {
    Fork(Fork(OfText(p.primary), OfText(p.expert)),
    Fork(Fork(OfPolicyKind(p.kind), OfSeq(OfPredicate, p.predicates)),
    Fork(Fork(OfOptionalText(p.fallback), OfText(p.protocolDigest)), Fork(OfInt(p.issuedAt), OfInt(p.expiresAt)))))
  }

  lemma PredicatesTell(xs: seq<C.Predicate>, ys: seq<C.Predicate>)
    requires OfSeq(OfPredicate, xs) == OfSeq(OfPredicate, ys)
    ensures xs == ys
  {
    TextsTell();
    hide OfText, OfNumber;
    forall a, b | OfPredicate(a) == OfPredicate(b) ensures a == b { NumberTells(a.threshold, b.threshold); }
    SeqTells(OfPredicate, xs, ys);
  }

  lemma PolicyTells(a: C.PolicyBody, b: C.PolicyBody)
    requires OfPolicy(a) == OfPolicy(b)
    ensures a == b
  {
    TextsTell();
    hide OfText, OfOptionalText, OfSeq;
    PredicatesTell(a.predicates, b.predicates);
  }

  // ----- the assumptions can be met

  /** There is a hashing of traces, evidence and identities without collisions, whatever the reason text. */
  lemma NamesExist(trustedReason: Text) returns (n: Names)
    ensures CollisionFree(n) && n.trustedReason == trustedReason
  {
    n := Names((i: Identity) => Code(OfIdentity(i)), (k: CompactKey) => Code(OfKey(k)), trustedReason);
    forall a, b | n.digest(a) == n.digest(b) ensures a == b {
      CodeInjective(OfIdentity(a), OfIdentity(b));
      IdentityTells(a, b);
    }
    forall a, b | n.canonical(a) == n.canonical(b) ensures a == b {
      CodeInjective(OfKey(a), OfKey(b));
      KeyTells(a, b);
    }
  }

  /** And of policies, whatever the wording of reasons and gates. */
  lemma PolicyHashingExists(wording: C.Wording) returns (w: C.Wording)
    ensures P.PolicyHashing(w) && w == wording.(policy := w.policy)
  {
    w := wording.(policy := (b: C.PolicyBody) => Code(OfPolicy(b)));
    forall a, b | w.policy(a) == w.policy(b) ensures a == b {
      CodeInjective(OfPolicy(a), OfPolicy(b));
      PolicyTells(a, b);
    }
  }
}
