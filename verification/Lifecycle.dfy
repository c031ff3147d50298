/** Lifecycle facts, the policy evaluators and the transition machine
    (control_plane/kernel.py, lifecycle/policy.py, lifecycle/machine.py). */
module Lifecycle {
  import opened Prelude
  import opened Evidence
  import opened Acceptance
  import opened Checks
  import opened Evaluation

  // ----- facts -----

  datatype Facts = Facts(
    acceptance: Option<Decision>,
    publishRequired: bool,
    publishDone: bool,
    publishFailedChecks: bool,
    publishHasBlockers: bool,
    publishForbiddenAction: bool,
    repairAttempts: int,
    maxRepairs: int,
    mandatoryRequired: bool,
    mandatorySatisfied: bool,
    environmentBlocked: bool,
    executionSucceeded: bool,
    executionStageFailed: bool,
    publishStageFailed: bool,
    createdPullRequest: bool,
    pushedGit: bool,
    committedGit: bool,
    reentryRequired: bool,
    reentryHasTarget: bool,
    reentryExhausted: bool)

  /** `_non_deferred_blockers` is not empty. */
  predicate UndeferredBlocker(e: StructuredEvidence) {
    exists k :: 0 <= k < |e.blockers| && !e.blockers[k].deferred
  }

  /** `_derive_execution_status` */
  function DerivedStatus(e: ExecutionResult): ExecutionStatus {
    if !e.status.Succeeded? then e.status
    else if !e.ok then if e.transportError then FailedStatus else BlockedStatus
    else if UndeferredBlocker(e.evidence) then if MutationEvidence(e) then Partial else BlockedStatus
    else Succeeded
  }

  predicate ExecutionSucceeded(e: Option<ExecutionResult>) {
    && e.Some? && e.value.ok && e.value.stageFailure.None?
    && DerivedStatus(e.value).Succeeded? && !UndeferredBlocker(e.value.evidence)
  }

  predicate FailedTest(ts: seq<TestCheck>) {
    exists k :: 0 <= k < |ts| && (ts[k].status.Fails() || ts[k].passed == Some(false))
  }

  /** `_publish_failed_checks` */
  predicate PublishFailedChecks(p: Option<PublishResult>) {
    p.Some? && (FailedTest(p.value.evidence.tests) || p.value.textReportsFailedChecks)
  }

  predicate PublishHasBlockers(p: Option<PublishResult>) {
    p.Some? && p.value.evidence.blockers != []
  }

  predicate PublishFinished(p: Option<PublishResult>) {
    p.Some? && p.value.ok && !PublishFailedChecks(p) && !PublishHasBlockers(p)
  }

  predicate RequiresIntegration(plan: ExecutionPlan) {
    HasLevel(plan.testLevels, RUNTIME_LEVELS)
  }

  predicate MandatoryVerification(plan: ExecutionPlan) {
    plan.Mutates() || plan.expectedChanges != [] || RequiresIntegration(plan)
  }

  /** `_verification_terms` */
  function VerificationTerms(plan: ExecutionPlan): set<Level> {
    if RequiresIntegration(plan) then set l | l in plan.testLevels else {}
  }

  /** Something did not pass, and only publish obligations did not. */
  predicate OnlyPublishMissing(d: Decision) {
    && (exists k :: 0 <= k < |d.results| && !d.results[k].status.Passed?)
    && (forall k :: 0 <= k < |d.results| && !d.results[k].status.Passed? ==> d.results[k].kind.PublishSatisfied?)
  }

  /** `lifecycle_facts`, for a plan that exists and without a re-entry request. */
  ghost function FactsFor(plan: ExecutionPlan, r: Results, acceptance: Option<Decision>,
                          repairAttempts: int, maxRepairs: int): Facts {
    Facts(
      acceptance := acceptance,
      publishRequired := plan.MustPublish(),
      publishDone := PublishFinished(r.publish),
      publishFailedChecks := PublishFailedChecks(r.publish),
      publishHasBlockers := PublishHasBlockers(r.publish),
      publishForbiddenAction := r.publish.Some? && r.publish.value.forbiddenAction,
      repairAttempts := repairAttempts,
      maxRepairs := maxRepairs,
      mandatoryRequired := MandatoryVerification(plan),
      mandatorySatisfied :=
        (acceptance.Some? && OnlyPublishMissing(acceptance.value))
        || !MandatoryVerification(plan) || PassedFor(r, VerificationTerms(plan)),
      environmentBlocked := EnvironmentBlocked(r),
      executionSucceeded := ExecutionSucceeded(r.execution),
      executionStageFailed := r.execution.Some? && r.execution.value.stageFailure.Some?,
      publishStageFailed := r.publish.Some? && r.publish.value.stageFailed,
      createdPullRequest := r.execution.Some? && r.execution.value.createdPullRequest,
      pushedGit := r.execution.Some? && r.execution.value.pushedGit,
      committedGit := r.execution.Some? && r.execution.value.committedGit,
      reentryRequired := false,
      reentryHasTarget := false,
      reentryExhausted := false)
  }

  // ----- policy -----

  datatype Query = CanLeaveExecute | CanPublish | CanLeavePublish | CanRepair | CanReenter | CanFinalizeSuccess

  datatype Violation =
    | ExecuteNoUsableResult | ExecuteCreatedPullRequest | ExecutePushedGit | ExecuteCommittedGit | ExecuteForbiddenAction
    | PublishBlockedByEnvironment | PublishNeedsVerification | PublishNeedsExecution
    | PublishNoUsableResult | PublisherRepaired
    | RepairBlockedByEnvironment | RepairLimitReached | RepairNeedsFailedChecks
    | ReentryBudgetExhausted | ReentryMissingTarget
    | FinalizeNeedsAcceptance | PolicyUnavailable

  datatype PolicyDecision = PolicyDecision(allowed: bool, violations: seq<Violation>)

  type Evaluator = (Query, Facts) -> PolicyDecision

  function If(c: bool, v: Violation): seq<Violation> {
    if c then [v] else []
  }

  function Violations(q: Query, f: Facts): seq<Violation> {
    match q
    case CanLeaveExecute =>
      If(f.executionStageFailed, ExecuteNoUsableResult)
      + If(f.createdPullRequest, ExecuteCreatedPullRequest)
      + If(f.pushedGit, ExecutePushedGit)
      + If(f.committedGit, ExecuteCommittedGit)
      + If(f.createdPullRequest || f.pushedGit || f.committedGit, ExecuteForbiddenAction)
    case CanPublish =>
      If(f.environmentBlocked, PublishBlockedByEnvironment)
      + If(f.mandatoryRequired && !f.mandatorySatisfied, PublishNeedsVerification)
      + If(!f.executionSucceeded, PublishNeedsExecution)
    case CanLeavePublish =>
      If(f.publishStageFailed, PublishNoUsableResult) + If(f.publishForbiddenAction, PublisherRepaired)
    case CanRepair =>
      If(f.environmentBlocked, RepairBlockedByEnvironment)
      + If(f.repairAttempts >= f.maxRepairs, RepairLimitReached)
      + If(!f.publishFailedChecks && !f.publishHasBlockers, RepairNeedsFailedChecks)
    case CanReenter =>
      if !f.reentryRequired then []
      else If(f.reentryExhausted, ReentryBudgetExhausted) + If(!f.reentryHasTarget, ReentryMissingTarget)
    case CanFinalizeSuccess =>
      If(f.acceptance.None? || !f.acceptance.value.accepted, FinalizeNeedsAcceptance)
  }

  /** `_evaluate_fallback`, the in-process evaluator. */
  function Fallback(q: Query, f: Facts): PolicyDecision {
    PolicyDecision(Violations(q, f) == [], Violations(q, f))
  }

  /** `_fail_closed`, used when the external engine is required and absent. */
  function FailClosed(q: Query, f: Facts): PolicyDecision {
    PolicyDecision(false, [PolicyUnavailable])
  }

  /** An evaluator that allows nothing the in-process one denies. */
  ghost predicate AllowsNoMore(evaluate: Evaluator) {
    forall q, f :: evaluate(q, f).allowed ==> Fallback(q, f).allowed
  }

  lemma BuiltInEvaluatorsAllowNoMore()
    ensures AllowsNoMore(Fallback) && AllowsNoMore(FailClosed)
  {
  }

  // ----- transitions -----

  datatype Next = NextPublish | NextVerify | NextRepair | NextReview | NextFinalize

  datatype Stage = Verifying | ReadyToPublish | Repairing | ExecutionReview | Finalizing | ControlPlaneStop | HumanReview

  datatype Transition = Transition(next: Next, stage: Stage, allowed: bool, violations: seq<Violation>)

  function AfterExecution(f: Facts, evaluate: Evaluator): Transition {
    var policy := evaluate(CanLeaveExecute, f);
    if !policy.allowed then Transition(NextFinalize, ControlPlaneStop, false, policy.violations)
    else if f.environmentBlocked || (f.mandatoryRequired && !f.mandatorySatisfied) then
      Transition(NextVerify, Verifying, true, [])
    else if f.publishRequired then
      var publish := evaluate(CanPublish, f);
      if publish.allowed then Transition(NextPublish, ReadyToPublish, true, [])
      else Transition(NextVerify, Verifying, true, publish.violations)
    else Transition(NextVerify, Verifying, true, [])
  }

  function AfterAcceptance(f: Facts, evaluate: Evaluator): Transition {
    if f.acceptance.None? then Transition(NextFinalize, HumanReview, false, [])
    else
      var d := f.acceptance.value;
      if f.publishRequired && !f.publishDone && f.mandatorySatisfied
         && (d.accepted || OnlyPublishMissing(d)) && evaluate(CanPublish, f).allowed
      then Transition(NextPublish, ReadyToPublish, true, [])
      else Transition(NextFinalize, Finalizing, d.accepted, [])
  }

  function AfterPublish(f: Facts, evaluate: Evaluator): Transition {
    var policy := evaluate(CanLeavePublish, f);
    if !policy.allowed then Transition(NextFinalize, ControlPlaneStop, false, policy.violations)
    else if f.publishFailedChecks || f.publishHasBlockers then
      var repair := evaluate(CanRepair, f);
      if repair.allowed then Transition(NextRepair, Repairing, true, [])
      else Transition(NextVerify, Verifying, false, repair.violations)
    else Transition(NextFinalize, Finalizing, true, [])
  }

  function AfterRepair(f: Facts, evaluate: Evaluator): Transition {
    var policy := evaluate(CanLeaveExecute, f);
    if !policy.allowed then Transition(NextFinalize, ControlPlaneStop, false, policy.violations)
    else Transition(NextReview, ExecutionReview, true, [])
  }

  // ----- the publish gate -----

  /** Execution produced a clean result. */
  predicate CleanExecution(e: Option<ExecutionResult>) {
    e.Some? && e.value.ok && e.value.status.Succeeded? && e.value.stageFailure.None?
    && !UndeferredBlocker(e.value.evidence)
  }

  /** ... which means a usable, successful result all of whose blockers are merely deferred. */
  lemma ExecutionSucceededIsClean(e: Option<ExecutionResult>)
    ensures ExecutionSucceeded(e) <==> CleanExecution(e)
    ensures CleanExecution(e) <==>
            && e.Some? && e.value.ok && e.value.status == Succeeded && e.value.stageFailure.None?
            && forall k :: 0 <= k < |e.value.evidence.blockers| ==> e.value.evidence.blockers[k].deferred
  {
  }

  /** A claimed success is taken back when the result is unusable or a blocker is not merely deferred;
      with a change to show for it, it still counts in part. */
  lemma DerivedStatusMeans(e: ExecutionResult)
    ensures var held := forall k :: 0 <= k < |e.evidence.blockers| ==> e.evidence.blockers[k].deferred;
            var changed := e.evidence.filesChanged != [] || e.evidence.mutationChanged;
            && (e.status != Succeeded ==> DerivedStatus(e) == e.status)
            && (e.status == Succeeded ==>
                  && (DerivedStatus(e) == Succeeded <==> e.ok && held)
                  && (DerivedStatus(e) == FailedStatus <==> !e.ok && e.transportError)
                  && (DerivedStatus(e) == Partial <==> e.ok && !held && changed))
  {
  }

  /** What counts as trouble with a publication, and as its being done. */
  lemma PublishTroubleMeans(p: PublishResult)
    ensures PublishFailedChecks(Some(p)) <==>
            p.textReportsFailedChecks
            || exists k :: 0 <= k < |p.evidence.tests|
                           && (p.evidence.tests[k].status in {FailedWord, BlockedWord, ErrorWord}
                               || p.evidence.tests[k].passed == Some(false))
    ensures PublishFinished(Some(p)) <==> p.ok && !PublishFailedChecks(Some(p)) && p.evidence.blockers == []
    ensures !PublishFailedChecks(None) && !PublishFinished(None)
  {
  }

  /** The question a violation answers, and the facts that raise it. */
  predicate Raises(v: Violation, q: Query, f: Facts) {
    match v
    case ExecuteNoUsableResult => q == CanLeaveExecute && f.executionStageFailed
    case ExecuteCreatedPullRequest => q == CanLeaveExecute && f.createdPullRequest
    case ExecutePushedGit => q == CanLeaveExecute && f.pushedGit
    case ExecuteCommittedGit => q == CanLeaveExecute && f.committedGit
    case ExecuteForbiddenAction => q == CanLeaveExecute && (f.createdPullRequest || f.pushedGit || f.committedGit)
    case PublishBlockedByEnvironment => q == CanPublish && f.environmentBlocked
    case PublishNeedsVerification => q == CanPublish && f.mandatoryRequired && !f.mandatorySatisfied
    case PublishNeedsExecution => q == CanPublish && !f.executionSucceeded
    case PublishNoUsableResult => q == CanLeavePublish && f.publishStageFailed
    case PublisherRepaired => q == CanLeavePublish && f.publishForbiddenAction
    case RepairBlockedByEnvironment => q == CanRepair && f.environmentBlocked
    case RepairLimitReached => q == CanRepair && f.repairAttempts >= f.maxRepairs
    case RepairNeedsFailedChecks => q == CanRepair && !f.publishFailedChecks && !f.publishHasBlockers
    case ReentryBudgetExhausted => q == CanReenter && f.reentryRequired && f.reentryExhausted
    case ReentryMissingTarget => q == CanReenter && f.reentryRequired && !f.reentryHasTarget
    case FinalizeNeedsAcceptance => q == CanFinalizeSuccess && (f.acceptance.None? || !f.acceptance.value.accepted)
    case PolicyUnavailable => false
  }

  lemma IfIn(c: bool, x: Violation, v: Violation)
    ensures v in If(c, x) <==> c && v == x
  {
  }

  lemma LeaveExecuteMeans(f: Facts, v: Violation)
    ensures v in Violations(CanLeaveExecute, f) <==> Raises(v, CanLeaveExecute, f)
  {
    IfIn(f.executionStageFailed, ExecuteNoUsableResult, v);
    IfIn(f.createdPullRequest, ExecuteCreatedPullRequest, v);
    IfIn(f.pushedGit, ExecutePushedGit, v);
    IfIn(f.committedGit, ExecuteCommittedGit, v);
    IfIn(f.createdPullRequest || f.pushedGit || f.committedGit, ExecuteForbiddenAction, v);
    hide If;
  }

  /** The in-process policy names every violation that is raised and no other. */
  lemma ViolationsMean(q: Query, f: Facts, v: Violation)
    ensures v in Violations(q, f) <==> Raises(v, q, f)
  {
    match q
    case CanLeaveExecute => LeaveExecuteMeans(f, v);
    case CanPublish =>
      IfIn(f.environmentBlocked, PublishBlockedByEnvironment, v);
      IfIn(f.mandatoryRequired && !f.mandatorySatisfied, PublishNeedsVerification, v);
      IfIn(!f.executionSucceeded, PublishNeedsExecution, v);
      hide If;
    case CanLeavePublish => LeavePublishMeans(f, v);
    case CanRepair =>
      IfIn(f.environmentBlocked, RepairBlockedByEnvironment, v);
      IfIn(f.repairAttempts >= f.maxRepairs, RepairLimitReached, v);
      IfIn(!f.publishFailedChecks && !f.publishHasBlockers, RepairNeedsFailedChecks, v);
      hide If;
    case CanReenter =>
      IfIn(f.reentryExhausted, ReentryBudgetExhausted, v);
      IfIn(!f.reentryHasTarget, ReentryMissingTarget, v);
      hide If;
    case CanFinalizeSuccess =>
      IfIn(f.acceptance.None? || !f.acceptance.value.accepted, FinalizeNeedsAcceptance, v);
      hide If;
  }

  lemma LeavePublishMeans(f: Facts, v: Violation)
    ensures v in Violations(CanLeavePublish, f) <==> Raises(v, CanLeavePublish, f)
  {
    IfIn(f.publishStageFailed, PublishNoUsableResult, v);
    IfIn(f.publishForbiddenAction, PublisherRepaired, v);
    hide If;
  }

  lemma PublishPolicyIff(f: Facts)
    ensures Fallback(CanPublish, f).allowed <==>
            !f.environmentBlocked && (f.mandatoryRequired ==> f.mandatorySatisfied) && f.executionSucceeded
  {
  }

  ghost predicate AllButPublishSatisfied(items: seq<Obligation>, r: Results, named: Obligation -> bool) {
    forall k :: 0 <= k < |items| && !items[k].kind.PublishSatisfied? ==> Satisfies(items[k], r, named)
  }

  /** Accepted, or short of publish obligations only: the same as every other obligation satisfied. */
  lemma PublishReadyIff(d: Decision, items: seq<Obligation>, prerequisites: seq<string>, r: Results,
                        named: Obligation -> bool)
    requires Evaluates(d, items, r, named) && r.execution.Some? && items != [] && WellKept(items, prerequisites)
    ensures (d.accepted || OnlyPublishMissing(d)) <==> AllButPublishSatisfied(items, r, named)
    ensures d.accepted <==> forall k :: 0 <= k < |items| ==> Satisfies(items[k], r, named)
    ensures OnlyPublishMissing(d) ==> !d.accepted
  {
    hide Verdict, Satisfies;
    forall k | 0 <= k < |items|
      ensures BlockingById(items, d.results[k].id)
      ensures d.results[k].kind == items[k].kind
      ensures d.results[k].status.Passed? <==> Satisfies(items[k], r, named)
    {
      BlockingByIdOfBlocking(items, d.results[k].id);
      PassesIffSatisfied(items[k], r, named);
    }
    assert d.accepted <==> BlockingPassed(items, d.results);
    assert BlockingById(items, d.results[0].id);
    assert d.accepted <==> forall k :: 0 <= k < |items| ==> d.results[k].status.Passed?;
    assert AllButPublishSatisfied(items, r, named) <==>
           forall k :: 0 <= k < |items| && !d.results[k].status.Passed? ==> d.results[k].kind.PublishSatisfied?;
  }

  lemma ContractsAreNotEmpty(items: seq<Obligation>, plan: ExecutionPlan, implementIntent: bool,
                             obligations: Option<Obligations>)
    requires IsContractFor(items, plan, implementIntent, obligations)
    ensures items != []
  {
    hide Prerequisites, HasLevel, Demands;
    var others := Kinds(items) - {RequiredEvidencePresent};
    DemandsNothingElseIff(plan, implementIntent, obligations, others);
    assert others == {} ==> RequiredEvidencePresent in Kinds(items);
    EmptyItems(items, []);
  }

  /** Exactly when the in-process policy lets acceptance go on to publish. */
  ghost predicate MayPublish(plan: ExecutionPlan, items: seq<Obligation>, r: Results, named: Obligation -> bool) {
    && plan.MustPublish() && !PublishFinished(r.publish)
    && AllButPublishSatisfied(items, r, named)
    && CleanExecution(r.execution) && !EnvironmentBlocked(r)
    && (MandatoryVerification(plan) && PublishDone(r) ==> PassedFor(r, VerificationTerms(plan)))
  }

  lemma PublishGate(plan: ExecutionPlan, implementIntent: bool, obligations: Option<Obligations>,
                    items: seq<Obligation>, r: Results, named: Obligation -> bool, d: Decision,
                    attempts: int, maxRepairs: int)
    requires IsContractFor(items, plan, implementIntent, obligations) && Evaluates(d, items, r, named)
    ensures AfterAcceptance(FactsFor(plan, r, Some(d), attempts, maxRepairs), Fallback).next.NextPublish?
            <==> MayPublish(plan, items, r, named)
  {
    hide Prerequisites, HasLevel, PassedFor, EnvironmentBlocked, Verdict, Decide, PrerequisitesProved;
    var f := FactsFor(plan, r, Some(d), attempts, maxRepairs);
    PublishPolicyIff(f);
    ExecutionSucceededIsClean(r.execution);
    if r.execution.Some? {
      ContractsAreNotEmpty(items, plan, implementIntent, obligations);
      PublishReadyIff(d, items, Prerequisites(plan, obligations), r, named);
      if plan.MustPublish() && AllButPublishSatisfied(items, r, named) {
        assert PublishSatisfied in Kinds(items);
        var p :| 0 <= p < |items| && items[p].kind.PublishSatisfied?;
        assert Satisfies(items[p], r, named) <==> PublishDone(r);
        assert d.accepted <==> PublishDone(r);
      }
    }
  }

  /** Under any evaluator that allows no more than the in-process one, publication is never
      premature. */
  lemma NoPrematurePublish(plan: ExecutionPlan, implementIntent: bool, obligations: Option<Obligations>,
                           items: seq<Obligation>, r: Results, named: Obligation -> bool, d: Decision,
                           attempts: int, maxRepairs: int, evaluate: Evaluator)
    requires IsContractFor(items, plan, implementIntent, obligations) && Evaluates(d, items, r, named)
    requires AllowsNoMore(evaluate)
    requires AfterAcceptance(FactsFor(plan, r, Some(d), attempts, maxRepairs), evaluate).next.NextPublish?
    ensures MayPublish(plan, items, r, named)
  {
    hide *;
    var f := FactsFor(plan, r, Some(d), attempts, maxRepairs);
    assert AfterAcceptance(f, Fallback).next.NextPublish? by {
      LessPermissivePublish(f, evaluate);
    }
    PublishGate(plan, implementIntent, obligations, items, r, named, d, attempts, maxRepairs);
  }

  lemma LessPermissivePublish(f: Facts, evaluate: Evaluator)
    requires AllowsNoMore(evaluate) && AfterAcceptance(f, evaluate).next.NextPublish?
    ensures AfterAcceptance(f, Fallback).next.NextPublish?
  {
  }

  // ----- repair after publication -----

  /** Publication results in trouble leave by a repair exactly while attempts remain and the
      environment works; otherwise they leave by a transition that is not allowed. */
  lemma RepairIff(plan: ExecutionPlan, r: Results, attempts: int, maxRepairs: int)
    ensures var t := AfterPublish(FactsFor(plan, r, None, attempts, maxRepairs), Fallback);
            var troubled := PublishFailedChecks(r.publish) || PublishHasBlockers(r.publish);
            var usable := r.publish.Some? ==> !r.publish.value.stageFailed && !r.publish.value.forbiddenAction;
            && (t.next.NextRepair? <==> usable && troubled && attempts < maxRepairs && !EnvironmentBlocked(r))
            && (troubled && !t.next.NextRepair? ==> !t.allowed)
            && (t.allowed && t.next.NextFinalize? <==> usable && !troubled)
            && (t.next.NextVerify? <==> usable && troubled && !t.next.NextRepair?)
            && (RepairLimitReached in t.violations <==> usable && troubled && attempts >= maxRepairs)
  {
    hide EnvironmentBlocked, PassedFor, HasLevel;
  }

  lemma RepairUnderStricterPolicy(f: Facts, evaluate: Evaluator)
    requires AllowsNoMore(evaluate) && AfterPublish(f, evaluate).next.NextRepair?
    ensures f.repairAttempts < f.maxRepairs && !f.environmentBlocked
    ensures f.publishFailedChecks || f.publishHasBlockers
  {
    assert Fallback(CanRepair, f).allowed;
  }

  /** After an execution that kept to its own business the transition is to publish exactly when
      publication is due, the environment works, the mandatory verification is there and the execution
      succeeded, and otherwise to verify; after a repair it is back to review. */
  lemma AfterExecutionIff(f: Facts)
    requires !f.createdPullRequest && !f.pushedGit && !f.committedGit && !f.executionStageFailed
    ensures var t := AfterExecution(f, Fallback);
            && t.allowed
            && (t.next.NextPublish? <==>
                f.publishRequired && !f.environmentBlocked && (f.mandatoryRequired ==> f.mandatorySatisfied)
                && f.executionSucceeded)
            && (!t.next.NextPublish? ==> t.next.NextVerify?)
            && (t.violations == [PublishNeedsExecution] <==>
                f.publishRequired && !f.environmentBlocked && (f.mandatoryRequired ==> f.mandatorySatisfied)
                && !f.executionSucceeded)
            && (t.violations == [] || t.violations == [PublishNeedsExecution])
    ensures AfterRepair(f, Fallback).allowed && AfterRepair(f, Fallback).next.NextReview?
  {
    PublishPolicyIff(f);
  }

  /** Without publication the run is finalized, successfully exactly when it was accepted; nothing is
      published without an acceptance. */
  lemma NoPublishMeansFinalize(f: Facts, evaluate: Evaluator)
    ensures var t := AfterAcceptance(f, evaluate);
            && (t.next.NextPublish? ==> f.acceptance.Some? && t.allowed)
            && (!t.next.NextPublish? ==>
                  t.next.NextFinalize? && (t.allowed <==> f.acceptance.Some? && f.acceptance.value.accepted))
  {
  }

  /** Execution evidence of a commit, push or pull request stops the workflow. */
  lemma ExecutionMustNotPublish(f: Facts, evaluate: Evaluator)
    requires AllowsNoMore(evaluate)
    requires f.createdPullRequest || f.pushedGit || f.committedGit || f.executionStageFailed
    ensures AfterExecution(f, evaluate).next.NextFinalize? && !AfterExecution(f, evaluate).allowed
    ensures AfterRepair(f, evaluate).next.NextFinalize? && !AfterRepair(f, evaluate).allowed
  {
    assert !Fallback(CanLeaveExecute, f).allowed by {
      var v := Violations(CanLeaveExecute, f);
      assert |v| > 0;
    }
  }
}
