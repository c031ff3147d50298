/** Evaluating a contract: what an accepted decision means (control_plane/kernel.py). */
module Evaluation {
  import opened Prelude
  import opened Evidence
  import opened Acceptance
  import opened Checks

  datatype FinalStatus =
    | CompletedStatus | PartiallyCompleted | FailedFinal | BlockedFinal
    | NeedsEnvironment | NeedsHumanReview | AgentFailed | ControlPlaneViolation
    | ResearchFailed | ObservationFailed | ExecutionFailed | PublishFailed
    | ExecutedUnverified | ImplementedOnly | PlannedOnly

  datatype AcceptanceStatus = Accepted | Rejected | BlockedAcceptance | EnvironmentNeeded | HumanReviewNeeded

  datatype Decision = Decision(
    accepted: bool,
    status: AcceptanceStatus,
    final: FinalStatus,
    results: seq<ObligationResult>)

  const COMPILE_TERMS := {BuildTests, CompileTests}
  const INTEGRATION_TERMS := {IntegrationTests, E2eTests, EndToEndTests}

  predicate NeedsWorkingEnvironment(kind: Kind) {
    kind.EnvironmentSatisfied? || kind.IntegrationTestsRun? || kind.IntegrationTestsPassed?
    || kind.RelevantTestsRun? || kind.RelevantTestsPassed?
  }

  /** The branch for publish obligations. */
  predicate PublishDone(r: Results) {
    if r.verification.Some? && (r.verification.value.commitRequired || r.verification.value.pushRequired) then
      && (!r.verification.value.commitRequired || r.verification.value.commitDone)
      && (!r.verification.value.pushRequired || r.verification.value.pushDone)
    else r.publish.Some? && r.publish.value.ok
  }

  /** The branch for kinds nothing else handles. */
  predicate GenericEvidence(r: Results) {
    || (r.verification.Some? && (r.verification.value.passed || r.verification.value.checksPassed != []))
    || (r.execution.Some? && r.execution.value.bundleOk == Some(true))
  }

  // ----- what each obligation asks of the evidence -----

  /** `named` is the text search for evidence of a discovered obligation. */
  ghost predicate Satisfies(o: Obligation, r: Results, named: Obligation -> bool) {
    && (NeedsWorkingEnvironment(o.kind) ==> !EnvironmentBlocked(r))
    && match o.kind
       case CodeChanged => r.execution.Some? && MutationEvidence(r.execution.value)
       case BuildSucceeded => PassedFor(r, COMPILE_TERMS)
       case RelevantTestsRun => RanFor(r, {})
       case RelevantTestsPassed => PassedFor(r, {})
       case IntegrationTestsRun => RanFor(r, INTEGRATION_TERMS)
       case IntegrationTestsPassed => PassedFor(r, INTEGRATION_TERMS)
       case EnvironmentSatisfied => PrerequisitesProved(o, r)
       case DocumentationUpdated | ExamplesUpdated | CiUpdated | CodegenUpdated | WorkSurfaceComplete => named(o)
       case PublishSatisfied => PublishDone(r)
       case RequiredEvidencePresent => GenericEvidence(r)
  }

  // ----- the verdict on one obligation -----

  ghost predicate SomethingFails(r: Results, terms: set<Level>) {
    exists w: Word :: w.Fails() && Reports(r, terms, w)
  }

  /** `_check_result`: not run, failed, passed, or run without a passing result. */
  ghost function CheckVerdict(r: Results, terms: set<Level>): ResultStatus {
    if !RanFor(r, terms) then NotRun
    else if SomethingFails(r, terms) then Failed
    else if PassedFor(r, terms) then Passed
    else NotRun
  }

  function PassOrFail(ok: bool): ResultStatus {
    if ok then Passed else Failed
  }

  ghost function Verdict(o: Obligation, r: Results, named: Obligation -> bool): ResultStatus {
    if NeedsWorkingEnvironment(o.kind) && EnvironmentBlocked(r) then Blocked
    else match o.kind
      case CodeChanged => PassOrFail(r.execution.Some? && MutationEvidence(r.execution.value))
      case BuildSucceeded => CheckVerdict(r, COMPILE_TERMS)
      case RelevantTestsRun => if RanFor(r, {}) then Passed else NotRun
      case RelevantTestsPassed => CheckVerdict(r, {})
      case IntegrationTestsRun => if RanFor(r, INTEGRATION_TERMS) then Passed else NotRun
      case IntegrationTestsPassed => CheckVerdict(r, INTEGRATION_TERMS)
      case EnvironmentSatisfied =>
        if PrerequisitesProved(o, r) then Passed else if AnyBlocker(r) then Blocked else Failed
      case DocumentationUpdated | ExamplesUpdated | CiUpdated | CodegenUpdated | WorkSurfaceComplete =>
        PassOrFail(named(o))
      case PublishSatisfied => PassOrFail(PublishDone(r))
      case RequiredEvidencePresent => PassOrFail(GenericEvidence(r))
  }

  /** Blocked results of these kinds name an environment blocker. */
  ghost function Judgement(o: Obligation, r: Results, named: Obligation -> bool): ObligationResult {
    ObligationResult(o.id, o.kind, Verdict(o, r, named), Verdict(o, r, named).Blocked?)
  }

  /** An obligation passes exactly when the evidence satisfies it. */
  lemma PassesIffSatisfied(o: Obligation, r: Results, named: Obligation -> bool)
    ensures Verdict(o, r, named).Passed? <==> Satisfies(o, r, named)
  {
    hide Reports, EnvironmentBlocked, PrerequisitesProved, AnyBlocker;
    forall terms | PassedFor(r, terms) ensures RanFor(r, terms) {
      var w: Word :| w.Passes() && Reports(r, terms, w);
      assert w.Runs();
    }
  }

  // ----- the whole decision -----

  /** `_contract_obligation_by_id(...).blocking`: an unknown id counts as blocking. */
  function BlockingById(items: seq<Obligation>, id: nat): bool {
    if items == [] then true
    else if items[0].id == id then items[0].blocking
    else BlockingById(items[1..], id)
  }

  lemma {:induction false} BlockingByIdOfBlocking(items: seq<Obligation>, id: nat)
    requires forall i :: 0 <= i < |items| ==> items[i].blocking
    ensures BlockingById(items, id)
  {
    if items != [] && items[0].id != id {
      BlockingByIdOfBlocking(items[1..], id);
    }
  }

  predicate AnyStatus(items: seq<Obligation>, results: seq<ObligationResult>, s: ResultStatus) {
    exists k :: 0 <= k < |results| && BlockingById(items, results[k].id) && results[k].status == s
  }

  predicate BlockingPassed(items: seq<Obligation>, results: seq<ObligationResult>) {
    && (exists k :: 0 <= k < |results| && BlockingById(items, results[k].id))
    && (forall k :: 0 <= k < |results| && BlockingById(items, results[k].id) ==> results[k].status.Passed?)
  }

  function Decide(items: seq<Obligation>, results: seq<ObligationResult>, mutated: bool): Decision {
    if BlockingPassed(items, results) then Decision(true, Accepted, CompletedStatus, results)
    else if exists k :: 0 <= k < |results| && results[k].environmentBlocker then
      Decision(false, EnvironmentNeeded, NeedsEnvironment, results)
    else if AnyStatus(items, results, Blocked) then Decision(false, BlockedAcceptance, BlockedFinal, results)
    else if AnyStatus(items, results, Failed) then
      Decision(false, Rejected, if mutated then PartiallyCompleted else FailedFinal, results)
    else Decision(false, HumanReviewNeeded, NeedsHumanReview, results)
  }

  const MISSING_EXECUTION := Decision(false, HumanReviewNeeded, NeedsHumanReview,
                                      [ObligationResult(0, RequiredEvidencePresent, NotRun, false)])

  /** `d` is the decision the kernel takes on this contract and evidence. */
  ghost predicate Evaluates(d: Decision, items: seq<Obligation>, r: Results, named: Obligation -> bool) {
    if r.execution.None? then d == MISSING_EXECUTION
    else
      && |d.results| == |items|
      && (forall k :: 0 <= k < |items| ==> d.results[k] == Judgement(items[k], r, named))
      && d == Decide(items, d.results, MutationEvidence(r.execution.value))
  }

  /** Some obligation has this result. */
  predicate Any(d: Decision, s: ResultStatus) {
    exists k :: 0 <= k < |d.results| && d.results[k].status == s
  }

  /** Which final status an evaluated contract of blocking obligations gets, in terms of the results.
      A blocked result always names an environment blocker, so "blocked" itself never comes out. */
  lemma FinalStatusIff(d: Decision, items: seq<Obligation>, r: Results, named: Obligation -> bool)
    requires Evaluates(d, items, r, named) && r.execution.Some? && items != []
    requires forall i :: 0 <= i < |items| ==> items[i].blocking
    ensures d.final == CompletedStatus <==> !Any(d, Blocked) && !Any(d, Failed) && !Any(d, NotRun)
    ensures d.final == NeedsEnvironment <==> Any(d, Blocked)
    ensures d.final == PartiallyCompleted <==>
            !Any(d, Blocked) && Any(d, Failed) && MutationEvidence(r.execution.value)
    ensures d.final == FailedFinal <==> !Any(d, Blocked) && Any(d, Failed) && !MutationEvidence(r.execution.value)
    ensures d.final == NeedsHumanReview <==> !Any(d, Blocked) && !Any(d, Failed) && Any(d, NotRun)
    ensures d.final != BlockedFinal
    ensures d.status == Accepted <==> d.final == CompletedStatus
    ensures d.status == EnvironmentNeeded <==> d.final == NeedsEnvironment
    ensures d.status == Rejected <==> d.final == PartiallyCompleted || d.final == FailedFinal
    ensures d.status == HumanReviewNeeded <==> d.final == NeedsHumanReview
    ensures d.accepted <==> d.status == Accepted
  {
    hide Verdict, MutationEvidence;
    forall k | 0 <= k < |items|
      ensures BlockingById(items, d.results[k].id)
      ensures d.results[k].environmentBlocker == d.results[k].status.Blocked?
    {
      BlockingByIdOfBlocking(items, d.results[k].id);
    }
    assert forall s :: AnyStatus(items, d.results, s) <==> Any(d, s);
    assert BlockingById(items, d.results[0].id);
    assert BlockingPassed(items, d.results) <==> forall k :: 0 <= k < |d.results| ==> d.results[k].status.Passed?;
    assert (exists k :: 0 <= k < |d.results| && d.results[k].environmentBlocker) <==> Any(d, Blocked);
  }

  /** Without an execution there is nothing to accept: a person has to look. */
  lemma NothingExecuted(d: Decision, items: seq<Obligation>, r: Results, named: Obligation -> bool)
    requires Evaluates(d, items, r, named) && r.execution == None
    ensures !d.accepted && d.status == HumanReviewNeeded && d.final == NeedsHumanReview
    ensures |d.results| == 1 && d.results[0].status == NotRun && d.results[0].kind == RequiredEvidencePresent
  {
  }

  // ----- the imperative evaluation -----

  function Judged(o: Obligation, status: ResultStatus): ObligationResult {
    ObligationResult(o.id, o.kind, status, false)
  }

  /** `_run_result` */
  method RunResult(o: Obligation, r: Results, terms: set<Level>) returns (result: ObligationResult)
    ensures result == Judged(o, if RanFor(r, terms) then Passed else NotRun)
  {
    var ran, _, _ := CheckStatus(r, terms);
    result := Judged(o, if ran then Passed else NotRun);
  }

  /** `_check_result` */
  method CheckResult(o: Obligation, r: Results, terms: set<Level>) returns (result: ObligationResult)
    ensures result == Judged(o, CheckVerdict(r, terms))
  {
    var ran, passed, failed := CheckStatus(r, terms);
    if !ran { return Judged(o, NotRun); }
    if failed { return Judged(o, Failed); }
    return Judged(o, if passed then Passed else NotRun);
  }

  /** The branch for environment prerequisites. */
  method PrerequisiteResult(o: Obligation, r: Results) returns (result: ObligationResult)
    ensures result == if PrerequisitesProved(o, r) then Judged(o, Passed)
                      else ObligationResult(o.id, o.kind, if AnyBlocker(r) then Blocked else Failed, AnyBlocker(r))
  {
    if (o.environment == [] && o.checks == []) || !(o.kind.EnvironmentSatisfied? || o.environment != []) {
      return Judged(o, Passed);
    }
    var evidences := r.Evidences();
    if exists k :: 0 <= k < |evidences| && ProvesSetup(evidences[k]) { return Judged(o, Passed); }
    if r.verification.Some? && VerifierProvesSetup(r.verification.value) { return Judged(o, Passed); }
    if !AnyBlocker(r) {
      var ran, passed, _ :=
        CheckStatus(r, {IntegrationTests, SmokeTests, E2eTests, EndToEndTests, RuntimeTests, RuntimeProof});
      if ran && passed { return Judged(o, Passed); }
    }
    return if AnyBlocker(r) then ObligationResult(o.id, o.kind, Blocked, true) else Judged(o, Failed);
  }

  /** `_evaluate_obligation` */
  method EvaluateObligation(o: Obligation, r: Results, named: Obligation -> bool) returns (result: ObligationResult)
    requires r.execution.Some?
    ensures result == Judgement(o, r, named)
  {
    if EnvironmentBlocked(r) && NeedsWorkingEnvironment(o.kind) {
      return ObligationResult(o.id, o.kind, Blocked, true);
    }
    match o.kind
    case CodeChanged => result := Judged(o, PassOrFail(MutationEvidence(r.execution.value)));
    case BuildSucceeded => result := CheckResult(o, r, COMPILE_TERMS);
    case RelevantTestsRun => result := RunResult(o, r, {});
    case RelevantTestsPassed => result := CheckResult(o, r, {});
    case IntegrationTestsRun => result := RunResult(o, r, INTEGRATION_TERMS);
    case IntegrationTestsPassed => result := CheckResult(o, r, INTEGRATION_TERMS);
    case EnvironmentSatisfied => result := PrerequisiteResult(o, r);
    case DocumentationUpdated | ExamplesUpdated | CiUpdated | CodegenUpdated | WorkSurfaceComplete =>
      result := Judged(o, PassOrFail(named(o)));
    case PublishSatisfied => result := Judged(o, PassOrFail(PublishDone(r)));
    case RequiredEvidencePresent => result := Judged(o, PassOrFail(GenericEvidence(r)));
  }

  /** `evaluate_acceptance` */
  method EvaluateAcceptance(items: seq<Obligation>, r: Results, named: Obligation -> bool) returns (d: Decision)
    ensures Evaluates(d, items, r, named)
  {
    if r.execution.None? { return MISSING_EXECUTION; }
    hide Judgement;
    var results: seq<ObligationResult> := [];
    for i := 0 to |items|
      invariant |results| == i
      invariant forall k :: 0 <= k < i ==> results[k] == Judgement(items[k], r, named)
    {
      var result := EvaluateObligation(items[i], r, named);
      results := results + [result];
    }
    return Decide(items, results, MutationEvidence(r.execution.value));
  }
}
