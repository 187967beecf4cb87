# TASC evaluation controller: a Dafny model

TASC is an out-of-band evaluation controller: it parses untrusted JSON, joins execution traces to evaluator
receipts, turns the joined evidence into assessment decisions, drives a hash-chained controller through a
deployment life cycle, and publishes immutable packets of the results. This project models that logic and proves
properties of it. Paths below are relative to the repository root.

`dafny verify dfyconfig.toml` checks everything.

## What is modelled

**Event-sourced controller** (`Controller*.dfy`, `Timestamps.dfy`). Thirteen states, twelve facts. The step function
and the snapshot validator are modelled separately, as the program writes them separately. The validator is a
declarative predicate (`ValidSnapshot`) and the loops that decide it. Closure is exact: once the envelope and the
fact's own guards pass, the next snapshot is revalidated successfully if and only if `Residual` holds, a condition a
caller can evaluate before the call. Replay composes, duplicates vanish, an accepted log is the only order of its
events, and every reachable snapshot fails closed.

**Bounded JSON and canonical JSON** (`Json*.dfy`, `Jcs*.dfy`, `BoundedBytes.dfy`). RFC 8259 sections 2 to 7 as
concrete syntax trees that keep their white space. The explicit-stack scanner is modelled twice: as a step function
and as the mutable object the program runs. It accepts a text exactly when some tree derives it, with distinct
decoded keys, paired surrogates, finite numbers and every budget met. The grammar is proved unambiguous, so a text
denotes one value, and the RFC 8785 printer (section 3.2) is proved to round-trip against it.

**Evidence join** (`Grouping.dfy`, `Evidence*.dfy`, `CollisionFreedom.dfy`). The loops of the join, a functional reading
of them, and what the result means: which traces are kept, which executions are scored, the one fate of every receipt
and the list that shows it, and that the whole dataset ignores the order of its inputs.

**Assessment** (`Assessment*.dfy`). The output contract is a set of predicates; the engine is a set of methods that
replay policies, compute metrics and assemble the decision. A decision comes out exactly when no check refuses; it
always satisfies the contract, in every phase, and its size never exceeds the estimate made before the run.
`JoinAndAssess` composes this with the join.

**Publication** (`Publication*.dfy`). Any number of writers, each a step machine over its own local variables, race on
one target with POSIX rename behaviour; any step may fail or be the writer's last. The target may be there from the
start, and earlier calls may have left staging directories.

**Statistics and selection** (`Statistics.dfy`, `Bootstrap.dfy`, `Pareto.dfy`).

## Modelling choices

- Text is a sequence of UTF-16 units. Controller times are integers; `TimestampOrder` justifies this by showing that
  code-unit order of accepted timestamps is order of elapsed milliseconds.
- Hashes are function parameters. Where a property needs it, and only there, collision freedom is an assumption
  (`CollisionFree`, `CollisionFreeEvents`, `PolicyHashing`). Domain separation is one constructor per domain. Hashed
  numbers are ratios of integers (`Number`), as finite doubles are; `NamesExist` and `PolicyHashingExists` exhibit
  hashings that meet the assumptions.
- Doubles are bit patterns in canonical JSON, with the host's printing and reading as parameters that ECMA-262
  constrains (`Faithful`). Statistics and assessment are over `real`, so range errors do not occur.
- Authenticity of receipts (identity of objects issued by the local verifier) is the constructor `Authentic`;
  `Genuine` states what that verifier guarantees of them.
- Comparison of canonical JSON texts in the controller is equality of the values.
- The controller's revision numbers are unbounded; the program limits them to safe integers.
- A reason or gate text matters only for sorting, so wording is a parameter.

Where the code differs from a natural reading, the model follows the code. Replaying prefix and suffix separately
accepts up to 10,000 events each, replaying them together 10,000 in all (`ResumeCompletes`). A pinned anchor refuses
re-delivery of events from before the anchor, except the anchored event as the first of the suffix (`PinnedResume`).
A carriage return is dropped from an NDJSON record only before a line feed. A protocol that requires service capacity
can never pass a window (`CapacityNeverPasses`).

## Model

| member | source | states |
|---|---|---|
| Timestamps.TimestampOrder | src/controller-events.ts:28-89 | for all accepted timestamps, code-unit order is order of elapsed milliseconds, leap years included, and it is total |
| CodeUnits.CompareCodeUnits | src/determinism.ts:10-17 | the index loop computes the code-unit comparison |
| CodeUnits.CompareMeaning | src/determinism.ts:10-17 | one text precedes another iff it is a proper prefix or smaller at the first difference |
| CodeUnits.BeforeTotal | src/determinism.ts:10-17 | the comparison is a strict total order: trichotomous, irreflexive and transitive |
| ControllerValidator.CheckLedger | src/controller-events.ts:543-634 | the revision walk of one ledger decides its lineage, times and fresh digests |
| ControllerValidator.CheckWindows | src/controller-events.ts:518-635 | the ledger walk decides the declarative window rules and indexes every revision |
| ControllerValidator.CheckPhase | src/controller-events.ts:657-692 | the phase counters accept exactly one development, then holdout after nomination, then windows after a passing holdout |
| ControllerValidator.CheckAssessments | src/controller-events.ts:637-707 | the assessment walk decides unique decisions, phase order and sealed sources |
| ControllerValidator.ValidateSnapshot | src/controller-events.ts:461-1105 | the validator's loops accept a snapshot iff it satisfies the declarative invariant |
| ControllerStep.ApplyAdvances | src/controller.ts:671-994 | an applied event is authentic, extends the chain by one and keeps identity and validity interval |
| ControllerClosure.SealingAdds | src/controller.ts:600-669 | sealing a manifest adds exactly that revision to ordered, gapless ledgers, and digests stay distinct iff it is fresh |
| ControllerClosure.DevelopmentClosure | src/controller.ts:784-813 | a guarded development result survives revalidation iff nomination rule and policy validity hold |
| ControllerClosure.HoldoutClosure | src/controller.ts:825-844 | a guarded holdout result survives iff its decision is fresh |
| ControllerClosure.ManifestClosure | src/controller.ts:845-875 | a guarded manifest survives iff its digest is fresh, caps have room, and a first revision starts in the protocol's life |
| ControllerClosure.WindowAssessmentClosure | src/controller.ts:876-919 | a guarded window result survives iff its decision is fresh and there is room |
| ControllerClosure.StepClosure | src/controller.ts:735-994 | for every fact and accepted snapshot: guards passed, revalidation succeeds iff the residual condition holds |
| ControllerReplay.ReplayFromSnapshot | src/controller.ts:1251-1289 | the replay loop with its seen-map computes the fold over the log |
| ControllerReplay.FoldComposes | src/controller.ts:1251-1289 | replaying a concatenation is replaying the parts in turn, histories included |
| ControllerReplay.DuplicateVanishes | src/controller.ts:1258-1275 | an already applied event inserted anywhere later changes nothing |
| ControllerReplay.UniqueSuffices | src/controller.ts:1258-1275 | a log replays like itself without duplicates |
| ControllerReplay.SessionReplays | src/controller.ts:996-1026 | events appended live replay to the same controller |
| ControllerReplay.AcceptedLogIsChain | src/controller.ts:671-693 | an accepted log without duplicates is a chain of predecessor digests numbered from one |
| ControllerReplay.HashChainUnique | src/controller.ts:1251-1289 | two accepted logs from one genesis with one last event are one sequence and give one snapshot |
| ControllerReplay.OrderIsForced | src/controller.ts:671-693 | no other order of the same events is accepted |
| ControllerReplay.ResumeCompletes | src/controller.ts:1317-1363 | resuming from a verified prefix equals replaying everything, exactly within the event bound |
| ControllerReplay.PinnedResume | src/controller.ts:1317-1363 | a pinned anchor resumes to the full run's snapshot iff the suffix re-delivers nothing older than the anchored event |
| ControllerRuns.RunsFailClosed | src/controller.ts:735-994 | in every reachable snapshot a result that is not favourable is the last one and closes the state |
| ControllerRuns.RunsAccumulate | src/controller.ts:735-994 | extending a run keeps policy, deployment, evidence and reasons and never reopens a closed state |
| ControllerRuns.DeploymentFollowsPass | src/controller.ts:876-948 | a deployment observation directly follows a passing assessment of a ledger's head revision |
| JsonLexemes.StringSound | src/bounded-input.ts:404-502 | a scanned string is an RFC 8259 string with paired surrogates within the length limit |
| JsonLexemes.StringComplete | src/bounded-input.ts:404-502 | every such string is scanned to its end and decoded |
| JsonLexemes.NumberSound | src/bounded-input.ts:515-569 | a scanned number matches the grammar, the length limit and finiteness |
| JsonLexemes.NumberComplete | src/bounded-input.ts:515-569 | every such delimited number is scanned to its end |
| JsonAcceptance.ValueComplete | src/bounded-input.ts:585-715 | every derivation within the budgets is scanned through by the explicit stack |
| JsonSoundness.ValueSound | src/bounded-input.ts:585-715 | whatever the explicit stack scans through has a derivation within the budgets |
| JsonSoundness.ScannerDecides | src/bounded-input.ts:717-755 | the scanner accepts a text iff it is one RFC 8259 text with distinct keys, paired surrogates, finite numbers and all limits met |
| JsonMachine.Scanner.ScanStringAt | src/bounded-input.ts:404-502 | the segment-copying string loop computes the scanned end and the decoded key |
| JsonMachine.Scanner.ScanNumberToken | src/bounded-input.ts:515-569 | the in-place number scan agrees with the lexical function in outcome, error and index |
| JsonMachine.Scanner.ScanObjectFrame | src/bounded-input.ts:635-682 | one object transition on the mutable stack agrees with the step function |
| JsonMachine.Scanner.ScanArrayFrame | src/bounded-input.ts:684-715 | one array transition on the mutable stack agrees with the step function |
| JsonMachine.ValidateJsonGrammar | src/bounded-input.ts:717-755 | the mutable scanner terminates, holds at most maxDepth frames, and accepts exactly the bounded JSON texts |
| JsonUnambiguous.DerivationUnique | src/bounded-input.ts:757-772 | a text has at most one derivation, white space included |
| JsonUnambiguous.VerdictByDerivation | src/bounded-input.ts:717-755 | given its derivation, a text is accepted iff that derivation is within the budgets |
| Jcs.AssertWellFormedUnicode | src/determinism.ts:19-33 | the look-ahead loop accepts iff every surrogate is paired |
| Jcs.Canonicalize | src/determinism.ts:40-76 | the recursive printer, keys sorted first, computes the canonical text or its first error |
| JcsRoundTrip.CanonicalIsPrint | src/determinism.ts:40-76 | printing succeeds iff strings are well formed and numbers finite, and prints the tree of the normal form |
| JcsRoundTrip.KeysStrictlyOrdered | src/determinism.ts:63-68 | printed keys stand in strictly increasing code-unit order |
| JcsRoundTrip.RoundTrip | src/determinism.ts:79-81 | every derivation of the printed text denotes the value up to key order and negative zero |
| JcsRoundTrip.EqualTextEqualValue | src/determinism.ts:79-81 | two values print alike iff they are equal up to key order and negative zero |
| JcsRoundTrip.ReprintIsFixed | src/determinism.ts:79-81 | printing what a canonical text denotes reprints it |
| JcsRoundTrip.FieldOrderForgotten | src/determinism.ts:63-68 | insertion order of fields shows neither in the text nor in the error |
| JcsRoundTrip.ScannerAcceptsPrinted | src/bounded-input.ts:717-772 | the scanner accepts a printed value iff its derivation is within budget; limits of the text's length suffice |
| JcsRoundTrip.AcceptedCanonicalizes | src/bounded-input.ts:757-772 | every accepted text denotes a value with distinct keys that can be printed |
| BoundedBytes.Collector.EnsureCapacity | src/bounded-input.ts:894-911 | growing keeps the contents, at least doubles or reaches the limit, and keeps recopied bytes below twice the limit |
| BoundedBytes.Collector.AcceptChunk | src/bounded-input.ts:913-933 | an accepted chunk is appended, a refused one changes nothing, and the refusal is the first applicable |
| BoundedBytes.CollectBoundedBytes | src/bounded-input.ts:875-960 | chunks are accepted iff all limits hold and then yield exactly their concatenation |
| BoundedBytes.ParseBoundedNdjson | src/bounded-input.ts:822-868 | the cursor loop yields the per-record results or the first fault with its line number |
| BoundedBytes.LinesOfJoined | src/bounded-input.ts:822-868 | records joined by LF or CRLF, finally terminated or not, split back into themselves |
| BoundedBytes.PerRecord | src/bounded-input.ts:822-868 | all records parse iff each fits, is not blank, is within the item limit and parses alone |
| Grouping.GroupBy | src/evidence-join.ts:818-830 | the loop yields the keys in first-occurrence order and every key's elements in input order |
| EvidenceJoin.ResolveGroupSplit | src/evidence-join.ts:401-430 | byte-wise reduction gives the digest's value modulo the bucket count, and its split unless the bucket is in both lists or neither |
| EvidenceJoin.RetainUniqueTraceRecords | src/evidence-join.ts:854-901 | the two grouping passes yield the retained, repeated and conflicting traces |
| EvidenceJoin.ValidateTraceMetadata | src/evidence-join.ts:943-974 | comparing with the first record of each group decides that all paired and same-case records agree and no group spans splits |
| EvidenceAdmission.AdmitReceipts | src/evidence-join.ts:1302-1379 | the receipt loop fills the rejected, admitted and context lists by the first failing check |
| EvidenceAdmission.RejectDrift | src/evidence-join.ts:1381-1398 | two verification contexts reject every admitted receipt |
| EvidenceAdmission.RetainDistinctEvidence | src/evidence-join.ts:1400-1416 | one record per evidence digest, repeated ones reported |
| EvidenceAdmission.RetainSoleEvidence | src/evidence-join.ts:1418-1434 | join keys with several distinct records are reported as conflicts |
| EvidencePlacement.PlaceEvidence | src/evidence-join.ts:1436-1560 | the evidence loop places each record: orphan, lineage conflict, too early, scored or declared |
| EvidencePlacement.BuildExecutions | src/evidence-join.ts:1562-1661 | each retained trace gets its outcome, and missing evidence is reported |
| EvidencePlacement.BuildPairs | src/evidence-join.ts:1663-1697 | a pair per case replicate with all required profiles, and the missing ones reported |
| EvidencePlacement.JoinAssessmentEvidence | src/evidence-join.ts:1212-1874 | the whole join computes the dataset with its tallies and blocking reasons, or the stage that refuses it |
| EvidenceTallies.TallySplits | src/evidence-join.ts:1708-1759 | the two accumulator loops yield every split that occurs with its replicates, distinct groups and case mass, in name order |
| EvidenceTallies.TallySlices | src/evidence-join.ts:1715-1766 | the nested loop yields every slice that occurs with its visits and distinct groups, in code-unit order |
| EvidenceTallies.SplitTalliesConserve | src/evidence-join.ts:1708-1759 | the split tallies add up to all case replicates and to the whole traffic mass |
| EvidenceOrder.RecordsPermute | src/evidence-join.ts:854-901 | retained traces come out in one order, whatever the input order |
| EvidenceOrder.StableDetermined | src/evidence-join.ts:1381-1416 | within one verification context an evidence digest determines the whole admitted record |
| EvidenceOrder.JoinIgnoresOrder | src/evidence-join.ts:1212-1874 | permuting traces and receipts gives the same error or the same dataset in every modelled field |
| EvidenceResult.RetainedIffUnambiguous | src/evidence-join.ts:854-901 | a trace is retained, once, iff its id is its own and no other such trace shares case, replicate and profile |
| EvidenceResult.ScoredExactlyWhen | src/evidence-join.ts:1302-1655 | an execution is scored iff unambiguous, successful, and its one distinct admitted receipt in a single context matches, is not early and carries a score |
| EvidenceResult.DeclaredExactlyWhen | src/evidence-join.ts:1508-1622 | it carries a declared non-score iff its one such receipt declares one |
| EvidenceFates.EveryReceiptEnds | src/evidence-join.ts:1302-1655 | the receipt at every position has exactly one fate, each by its own condition: refused, later copy, clash, orphan, lineage mismatch, too early, or scored or declared sole evidence of one trace; and the dataset lists it so |
| EvidenceFates.InvalidEntry | src/evidence-join.ts:1302-1550 | every invalid row is that of a receipt refused, early, or declared invalid |
| EvidenceFates.RepeatedEntry | src/evidence-join.ts:1400-1416 | every duplicate row is that of a later copy, with the number of copies |
| EvidenceFates.ConflictEntry | src/evidence-join.ts:1418-1498 | every row of a conflict is that of a receipt in a clash or of another lineage |
| EvidenceFates.OrphanEntry | src/evidence-join.ts:1470-1492 | every orphan is that of a receipt whose join key no retained trace has |
| EvidenceFates.EvidenceEntry | src/evidence-join.ts:1522-1538 | every piece of scored or declared evidence is that of its trace's sole receipt |
| EvidenceConservation.ReceiptsAccounted | src/evidence-join.ts:1302-1655 | receipts are conserved with multiplicity: invalid, extra duplicates, conflict rows, orphans, declared and scored evidence add up |
| EvidenceConservation.CleanMeansAllScored | src/evidence-join.ts:1805-1866 | in an admissible dataset every receipt is the scored sole evidence of a retained trace, as many are scored as received, and no execution lacks evidence |
| EvidenceConservation.AdmissibleIsClean | src/evidence-join.ts:1805-1866 | a dataset is admissible iff no diagnostic list has an entry |
| CollisionFreedom.NamesExist | src/evidence-join.ts:323-325 | collision-free hashing of traces, evidence, identities and sort keys exists, so the assumption can be met |
| AssessmentEngine.SumCosts | src/assessment.ts:583-618 | attempt costs add up with their weakest class until one is unavailable |
| AssessmentEngine.IndexExecutions | src/assessment.ts:692-708 | the index holds every execution at its identity, or an identity repeats |
| AssessmentEngine.ReplayPolicy | src/assessment.ts:831-878 | the replay loop yields a row or a reason per pair, by policy kind, route signal and fallback |
| AssessmentRows.DirectOk | src/assessment.ts:726-763 | a direct replay row meets the row contract |
| AssessmentRows.FallbackOk | src/assessment.ts:765-804 | a fallback row meets the row contract |
| AssessmentRows.ReplayOk | src/assessment-contract.ts:399-499 | all rows of a replay meet the row contract, and there are at most as many as pairs |
| AssessmentRows.WeightedMean | src/assessment.ts:903-916 | the accumulation loop computes the weighted mean |
| AssessmentRows.MeanBetween | src/assessment.ts:903-916 | a weighted mean lies between any bounds on its values |
| AssessmentRows.ScoreProvenance | src/assessment-contract.ts:619-641 | the class the engine reports for the mean score is the one the contract derives from the rows |
| AssessmentRows.OperationalMetrics | src/assessment.ts:918-993 | metrics are the traffic-weighted means and 0.95 quantiles of the rows, with rates in [0,1] and sound classes |
| AssessmentCandidate.CountsNest | src/assessment-contract.ts:547-590 | groups are at most cases, cases at most replicates, slice groups at most groups |
| AssessmentCandidate.Infer | src/assessment.ts:1166-1207 | the inference is the grouped bootstrap of per-case median differences over the paired population, and fails exactly when the population's size is refused |
| AssessmentCandidate.SufficientIff | src/assessment.ts:1086-1160 | the engine notes no shortfall iff every pair is replayed with evidence, costs are known, and coverage, groups and slices suffice |
| AssessmentCandidate.PassMeans | src/assessment.ts:1240-1317 | a candidate all of whose gates pass meets every limit of the protocol |
| AssessmentCandidate.CandidateIsOk | src/assessment-contract.ts:592-751 | the assembled candidate satisfies every refinement of the candidate schema |
| AssessmentPolicies.EnumeratePolicies | src/policy.ts:638-706 | the enumeration has the exact cardinality, strict digest order, and exactly the authorized policies |
| AssessmentPolicies.EnumeratedIff | src/policy.ts:500-534 | a policy is enumerated iff the protocol authorizes it for that issue time |
| CollisionFreedom.PolicyHashingExists | src/policy.ts:463-467 | collision-free hashing of policies exists, so the assumption can be met |
| AssessmentDecision.AssessCandidate | src/assessment.ts:1078-1340 | a result comes out unless evidence is sufficient and the bootstrap refuses its size; it is accepted by the contract and is what its replay against the control says |
| AssessmentDecision.OnlyWork | src/assessment.ts:457-468 | within the replay-row budget the bootstrap can refuse nothing but its work |
| AssessmentDecision.SelectCandidate | src/assessment.ts:1540-1558 | the selected candidate passes and is least in cost, latency and digest; none iff none passes |
| AssessmentDecision.UnavailableMetrics | src/assessment.ts:1560-1570 | the metrics some candidate lacks |
| AssessmentDecision.DecisionIsOk | src/assessment-contract.ts:829-1036 | the assembled decision meets every rule of the contract in every phase |
| AssessmentDecision.Assess | src/assessment.ts:1594-1792 | a decision comes out iff no check refuses, with the first refusal as the error; it is accepted by the contract, comes from its policies' replays, and has the phase's status and selection |
| AssessmentDecision.CapacityNeverPasses | src/assessment.ts:1016-1066 | a required service capacity makes every window result insufficient |
| AssessmentDecision.PassingMeans | src/assessment.ts:1078-1340 | a passing result has its inference, meets every limit of the protocol, and lost no row to missing evidence |
| AssessmentSize.SnapshotState.Snapshot | src/assessment-contract.ts:93-258 | the recursive walk with shared counters succeeds iff node and replay-row totals, depth, array lengths and key counts are within the limits |
| AssessmentSize.EstimateBounds | src/assessment.ts:376-499 | nodes and replay rows of any returned decision never exceed the estimate made before the run, and its shape is within the contract's limits |
| AssessmentSize.SnapshotDecision | src/assessment-contract.ts:93-258 | the contract's walk over a returned decision runs to the end |
| AssessmentJoined.JoinedFacts | src/assessment.ts:692-708 | a joined dataset has distinct identities, sound outcomes and as many pairs as it counts case replicates |
| AssessmentJoined.JoinAndAssess | src/assessment.ts:1594-1792 | from any traces and genuine receipts a decision comes out iff neither join nor assessment refuses; it is accepted and within the estimate |
| AssessmentJoined.JoinedNeverRepeats | src/assessment.ts:692-708 | a repeated execution never ends the assessment of a joined dataset |
| Publication.DurabilityLog.SyncHandle | src/artifacts.ts:741-761 | the capability record and limitation set change as the sync outcome says, and not at all on failure |
| PublicationSafety.FullVerifies | src/artifacts.ts:1266-1347 | the verifier accepts what the writer seals and reads the sealed manifest back |
| PublicationSafety.ActKeeps | src/artifacts.ts:1403-1629 | every step of every call keeps the invariant and touches only its own directory |
| PublicationSafety.TargetAlwaysComplete | src/artifacts.ts:1403-1629 | at every point of every run the target is absent or one complete verifiable packet |
| PublicationSafety.TargetNeverChanges | src/artifacts.ts:1566-1590 | once present the target's content never changes |
| PublicationSafety.SuccessesAgree | src/artifacts.ts:1748-1799 | successful calls were given one packet, it is the one at the target, and they report one manifest |
| PublicationSafety.ConflictsDiffer | src/artifacts.ts:1727-1741 | a call that reports a conflict was given another packet than the target's |
| PublicationSafety.SealedDurability | src/artifacts.ts:1510-1537 | the sealed limitations are those known at return |
| PublicationSafety.SealHolds | src/artifacts.ts:1528-1537 | the check after sealing never fails |
| PublicationSafety.WinnerIsFound | src/artifacts.ts:1785-1798 | a call that lost a race finds a whole packet and ends in agreement or conflict |
| PublicationSafety.StagingIsPrivate | src/artifacts.ts:1446-1450 | no two calls work in one staging directory |
| Statistics.WeightedQuantile | src/statistics.ts:84-117 | the result is the least input value whose cumulative weight reaches p times the mass; errors exactly as documented |
| Statistics.QuantileMonotone | src/statistics.ts:84-117 | the quantile is unique, monotone in p and ignores the order of the entries |
| Statistics.QuantileOrder | src/statistics.ts:53-65 | the interpolated quantile is monotone in p and stays within the data |
| Bootstrap.GeneratorCycle | src/statistics.ts:28-33 | whatever the seed, the states of 2^32 draws are all 32-bit words, each met exactly once |
| Bootstrap.GroupsConserve | src/statistics.ts:208-231 | group sums conserve total weighted effect and total traffic mass |
| Bootstrap.IntervalWithinGroups | src/statistics.ts:237-251 | interval ends are ordered and, like the estimate, within any bounds on the group means |
| Bootstrap.OneGroupIsExact | src/statistics.ts:237-270 | with one group both ends are the estimate |
| Bootstrap.CaseOrderForgotten | src/statistics.ts:208-270 | the result ignores the order of the cases |
| Bootstrap.BootstrapGroupedWeightedMeanCI | src/statistics.ts:167-271 | the loops succeed iff options and cases are valid, and compute the specified interval |
| Bootstrap.MedianBetween | src/statistics.ts:44-51 | the median forgets order and lies between the extremes |
| Pareto.StrictPartialOrder | src/evaluate.ts:1541-1575 | dominance is a strict partial order, also with unmeasured capacity |
| Pareto.ParetoFrontier | src/evaluate.ts:1587-1623 | the frontier is exactly the passers that no passer dominates, each as often as it passed |
| Pareto.FrontierAbove | src/evaluate.ts:1614-1623 | every passer is on the frontier or dominated by one on it |
| Pareto.NominatePolicy | src/evaluate.ts:1674-1694 | the nominated policy is least in cost and p95 latency over all passers, by id among equals on the frontier |

## Left out

- Schema plumbing, property-descriptor and proxy snapshots, deep freezing: values here are immutable; only the semantic refinements are modelled.
- Hashing, signatures and key parsing: functions with the assumptions stated above.
- UTF-8 decoding, byte-order marks and the wording of error messages.
- Which of several failing traces or metadata rules is reported first: the join reports the stage that failed.
- The caller's work budgets of the join and of the assessment, other than the replay-row and node limits.
- EvidencePlacement.JoinAssessmentEvidence: the dataset's own digest and its work counters are not computed; blocking reasons are a set, because their texts are fixed and sorted.
- Checks of a trace's attempts, models, costs and route signal against its protocol profile: one parameter (`attemptsConform`).
- AssessmentContract.DecisionOk: the length, trimming and well-formedness of texts are not modelled, because wording is a parameter.
- Detection of stale inputs, window membership of traces, and warnings: inputs of `AssessmentDecision.Assess`.
- AssessmentPolicies.EnumeratePolicies: predicates are taken in protocol order, because the final digest order makes their order unobservable.
- AssessmentRows.OperationalMetrics: over reals, so the non-finite branch of a metric does not arise.
- Statistics.WeightedQuantile: over reals, so the finite-range checks do not arise and the fallback to the last entry is where the mass is reached.
- Bootstrap.BootstrapGroupedWeightedMeanCI: rounding of the draws and of the sums is not modelled, and the three case checks share one error.
- JcsRoundTrip.RoundTrip: number printing and reading are parameters with the law that reading back gives the same double, zeros identified.
- Jcs.Canonicalize: arrays with holes, cyclic values, symbols and non-plain objects cannot be expressed as values here.
- Publication of nested or linked paths, inodes, modes and times, and the many separate reads of one verification: a verification is one step, which the immutability of the target and the privacy of staging directories justify.
- Queries over a controller's live registry, and the projections from decisions and manifests to controller facts.
- CLI, demos, reports, runtimes, shadow planning, the reference registry and the legacy single-split evaluation around the frontier.
