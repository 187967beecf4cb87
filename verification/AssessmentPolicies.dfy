/** The finite policy space of a protocol: what is enumerated is exactly what the protocol authorizes. */
module AssessmentPolicies {
  import opened CodeUnits
  import opened Wrappers
  import opened Sorting
  import opened Grouping
  import opened EvidenceModel
  import opened AssessmentContract
  import opened AssessmentEngine
  import opened AssessmentRows

  ghost predicate PolicyHashing(w: Wording) { forall a, b :: w.policy(a) == w.policy(b) ==> a == b }

  function ControlBody(plan: Plan, issued: int): PolicyBody {
    PolicyBody(ExpertOnly, plan.champion, plan.champion, [], None, plan.protocolDigest, issued, plan.expiresAt)
  }

  function FastBody(plan: Plan, issued: int, primary: Text): PolicyBody {
    PolicyBody(FastOnly, primary, plan.champion, [], None, plan.protocolDigest, issued, plan.expiresAt)
  }

  function CascadeBody(plan: Plan, issued: int, primary: Text, predicate_: Predicate): PolicyBody {
    PolicyBody(Cascade, primary, plan.champion, [predicate_], Some(plan.champion), plan.protocolDigest, issued, plan.expiresAt)
  }

  function Made(w: Wording, b: PolicyBody): Policy { Policy(b, w.policy(b)) }

  /** assertPolicyBundleMatchesProtocol */
  predicate Authorized(plan: Plan, b: PolicyBody) {
    && PolicySemantics(b) && b.protocolDigest == plan.protocolDigest && b.expert == plan.champion
    && b.expiresAt == plan.expiresAt && plan.createdAt <= b.issuedAt < plan.expiresAt
    && (match b.kind
        case ExpertOnly => b.primary == plan.champion
        case FastOnly => b.primary in plan.candidates
        case Cascade => b.primary in plan.candidates && b.predicates[0] in plan.predicates)
  }

  function CascadeWith(plan: Plan, issued: int, primary: Text): Predicate -> PolicyBody {
    p => CascadeBody(plan, issued, primary, p)
  }

  /** One fast policy, then one cascade per predicate. */
  function BodiesFor(plan: Plan, issued: int): Text -> seq<PolicyBody> {
    c => [FastBody(plan, issued, c)] + Map(CascadeWith(plan, issued, c), plan.predicates)
  }

  function Bodies(plan: Plan, issued: int): seq<PolicyBody> { Gather(SortStrings(plan.candidates), BodiesFor(plan, issued)) }

  function DigestOfPolicy(p: Policy): Text { p.digest }
  function MadeBy(w: Wording): PolicyBody -> Policy { b => Made(w, b) }

  lemma AuthorizedReplays(plan: Plan, b: PolicyBody)
    requires PlanOk(plan) && Authorized(plan, b)
    ensures Replayable(b)
  {
  }

  lemma CascadesAre(plan: Plan, issued: int, c: Text)
    ensures var cascades := Map(CascadeWith(plan, issued, c), plan.predicates);
            && |cascades| == |plan.predicates|
            && forall i :: 0 <= i < |cascades| ==> cascades[i] == CascadeBody(plan, issued, c, plan.predicates[i])
  {
    hide CascadeBody;
  }

  lemma BodyAt(plan: Plan, issued: int, c: Text)
    ensures var all := BodiesFor(plan, issued)(c);
            && |all| == |plan.predicates| + 1 && all[0] == FastBody(plan, issued, c)
            && forall i :: 0 <= i < |plan.predicates| ==> all[i + 1] == CascadeBody(plan, issued, c, plan.predicates[i])
  {
    CascadesAre(plan, issued, c);
    hide CascadeBody, FastBody, Map, CascadeWith;
  }

  lemma BodiesDistinct(plan: Plan, issued: int, c: Text)
    requires NoDuplicates(plan.predicates)
    ensures NoDuplicates(BodiesFor(plan, issued)(c))
  {
    BodyAt(plan, issued, c);
    hide BodiesFor;
    var all := BodiesFor(plan, issued)(c);
    forall i, j | 0 <= i < j < |all| ensures all[i] != all[j] {
      assert all[j] == CascadeBody(plan, issued, c, plan.predicates[j - 1]);
      if i > 0 { assert all[i] == CascadeBody(plan, issued, c, plan.predicates[i - 1]); }
    }
  }

  lemma BodiesOfOne(plan: Plan, issued: int, c: Text)
    requires PlanOk(plan)
    ensures NoDuplicates(BodiesFor(plan, issued)(c))
    ensures forall b :: b in BodiesFor(plan, issued)(c) <==>
              b == FastBody(plan, issued, c) || exists p :: p in plan.predicates && b == CascadeBody(plan, issued, c, p)
  {
    BodiesDistinct(plan, issued, c);
    BodyAt(plan, issued, c);
    hide BodiesFor, PlanOk, NoDuplicates;
    var all := BodiesFor(plan, issued)(c);
    forall p | p in plan.predicates ensures CascadeBody(plan, issued, c, p) in all {
      var i :| 0 <= i < |plan.predicates| && plan.predicates[i] == p;
      assert all[i + 1] == CascadeBody(plan, issued, c, p);
    }
    forall b | b in all && b != FastBody(plan, issued, c) ensures exists p :: p in plan.predicates && b == CascadeBody(plan, issued, c, p) {
      var i :| 0 <= i < |all| && all[i] == b;
      assert plan.predicates[i - 1] in plan.predicates && b == CascadeBody(plan, issued, c, plan.predicates[i - 1]);
    }
  }

  /** Every authorized policy of one issue time is enumerated once, and nothing else. */
  lemma BodiesAuthorized(plan: Plan, issued: int)
    requires PlanOk(plan) && plan.createdAt <= issued < plan.expiresAt
    ensures NoDuplicates(Bodies(plan, issued))
    ensures forall b :: b in Bodies(plan, issued) <==> Authorized(plan, b) && b.issuedAt == issued && !b.kind.ExpertOnly?
  {
    var names := SortStrings(plan.candidates);
    SlicesOk(plan.candidates);
    forall c ensures NoDuplicates(BodiesFor(plan, issued)(c)) && forall b :: b in BodiesFor(plan, issued)(c) ==> b.primary == c {
      BodiesOfOne(plan, issued, c);
    }
    GatherNoDuplicates(names, BodiesFor(plan, issued));
    GatherMembers(names, BodiesFor(plan, issued));
    forall b ensures b in Bodies(plan, issued) <==> Authorized(plan, b) && b.issuedAt == issued && !b.kind.ExpertOnly? {
      EnumeratedIff(plan, issued, b, names);
    }
  }

  lemma EnumeratedIff(plan: Plan, issued: int, b: PolicyBody, names: seq<Text>)
    requires PlanOk(plan) && plan.createdAt <= issued < plan.expiresAt
    requires forall c :: c in names <==> c in plan.candidates
    ensures (exists c :: c in names && b in BodiesFor(plan, issued)(c)) <==>
            Authorized(plan, b) && b.issuedAt == issued && !b.kind.ExpertOnly?
  {
    hide BodiesFor;
    if c :| c in names && b in BodiesFor(plan, issued)(c) {
      BodiesOfOne(plan, issued, c);
      if b != FastBody(plan, issued, c) {
        var p :| p in plan.predicates && b == CascadeBody(plan, issued, c, p);
        var i :| 0 <= i < |plan.predicates| && plan.predicates[i] == p;
      }
    }
    if Authorized(plan, b) && b.issuedAt == issued && !b.kind.ExpertOnly? {
      BodiesOfOne(plan, issued, b.primary);
      if b.kind.Cascade? {
        assert b == CascadeBody(plan, issued, b.primary, b.predicates[0]);
      } else {
        assert b == FastBody(plan, issued, b.primary);
      }
      assert b in BodiesFor(plan, issued)(b.primary);
    }
  }

  /** Strictly increasing digests. */
  predicate Ordered(ps: seq<Policy>) { forall i, j :: 0 <= i < j < |ps| ==> Before(ps[i].digest, ps[j].digest) }

  lemma SortedPolicies(w: Wording, bodies: seq<PolicyBody>)
    requires PolicyHashing(w) && NoDuplicates(bodies)
    ensures var ps := Sort(Map(MadeBy(w), bodies), ByKey(DigestOfPolicy));
            && Ordered(ps) && |ps| == |bodies| && forall p :: p in ps <==> p.body in bodies && p == Made(w, p.body)
  {
    var made := Map(MadeBy(w), bodies);
    var ps := Sort(made, ByKey(DigestOfPolicy));
    forall i, j | 0 <= i < j < |made| ensures made[i] != made[j] { assert made[i] == Made(w, bodies[i]) && made[j] == Made(w, bodies[j]); }
    SortPermutes(made, ByKey(DigestOfPolicy));
    SortNoDuplicates(made, ByKey(DigestOfPolicy));
    ByKeyPreorder(DigestOfPolicy);
    SortSorts(made, ByKey(DigestOfPolicy));
    hide Sort;
    SameMembers(ps, made);
    forall p ensures p in made <==> p.body in bodies && p == Made(w, p.body) {
      if p in made {
        var i :| 0 <= i < |made| && made[i] == p;
        assert made[i] == Made(w, bodies[i]);
      }
      if p.body in bodies && p == Made(w, p.body) {
        var i :| 0 <= i < |bodies| && bodies[i] == p.body;
        assert made[i] == Made(w, bodies[i]);
      }
    }
    forall i, j | 0 <= i < j < |ps| ensures Before(ps[i].digest, ps[j].digest) {
      assert ps[i] in ps && ps[j] in ps && ps[i] != ps[j];
      assert ByKey(DigestOfPolicy)(ps[i], ps[j]);
      assert Compare(DigestOfPolicy(ps[i]), DigestOfPolicy(ps[j])) <= 0;
      CompareZero(ps[i].digest, ps[j].digest);
    }
  }

  lemma {:induction false} BodiesCount(plan: Plan, issued: int, names: seq<Text>)
    ensures |Gather(names, BodiesFor(plan, issued))| == |names| * (|plan.predicates| + 1)
  {
    if names != [] {
      var n := |names| - 1;
      BodiesCount(plan, issued, names[..n]);
      assert |names| * (|plan.predicates| + 1) == n * (|plan.predicates| + 1) + (|plan.predicates| + 1);
    }
  }

  /** enumerateProtocolPolicyBundles: digest order, exact count, exactly the authorized non-control policies. */
  method EnumeratePolicies(w: Wording, plan: Plan, issued: int) returns (ps: seq<Policy>)
    requires PlanOk(plan) && PolicyHashing(w) && plan.createdAt <= issued < plan.expiresAt
    ensures Ordered(ps) && |ps| == |plan.candidates| * (|plan.predicates| + 1)
    ensures forall p :: p in ps <==>
              p == Made(w, p.body) && Authorized(plan, p.body) && p.body.issuedAt == issued && !p.body.kind.ExpertOnly?
  {
    var names := SortStrings(plan.candidates);
    SlicesOk(plan.candidates);
    var bodies: seq<PolicyBody> := [];
    for i := 0 to |names|
      invariant bodies == Gather(names[..i], BodiesFor(plan, issued))
    {
      assert names[..i + 1][..i] == names[..i];
      ghost var before := bodies;
      bodies := bodies + [FastBody(plan, issued, names[i])];
      for k := 0 to |plan.predicates|
        invariant bodies == before + ([FastBody(plan, issued, names[i])] + Map(CascadeWith(plan, issued, names[i]), plan.predicates)[..k])
      {
        bodies := bodies + [CascadeBody(plan, issued, names[i], plan.predicates[k])];
      }
      assert Map(CascadeWith(plan, issued, names[i]), plan.predicates)[..|plan.predicates|]
          == Map(CascadeWith(plan, issued, names[i]), plan.predicates);
    }
    assert names[..|names|] == names;
    BodiesAuthorized(plan, issued);
    BodiesCount(plan, issued, names);
    SortedPolicies(w, bodies);
    hide Sort, Authorized, PlanOk, SortStrings, PolicyHashing;
    ps := Sort(Map(MadeBy(w), bodies), ByKey(DigestOfPolicy));
  }
}
