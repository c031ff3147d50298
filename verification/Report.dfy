/** The final report and what its "completed" stands for (reports/finalizer.py). */
module Report {
  import opened Prelude
  import opened Evidence
  import opened Acceptance
  import opened Checks
  import opened Evaluation
  import Grounds
  import Packets
  import Scheduler
  import Lifecycle

  /** What `FinalReportBuilder.build` reads; the first four flags are the guards of its first four
      branches, `completion` the verifier's own completion status when it gave one. */
  datatype Inputs = Inputs(
    approvalDenied: bool,
    policyBlocked: bool,
    researchFailed: bool,
    observationFailed: bool,
    acceptance: Option<Decision>,
    progression: Option<Scheduler.Progress>,
    decomposition: Option<Packets.Plan>,
    plan: Option<ExecutionPlan>,
    results: Results,
    completion: Option<FinalStatus>)

  predicate Stuck(ps: seq<Packets.Packet>) {
    exists k :: 0 <= k < |ps| && (ps[k].status.Blocked? || ps[k].status.Failed?)
  }

  predicate Unfinished(ps: seq<Packets.Packet>) {
    exists k :: 0 <= k < |ps| && !ps[k].status.Done()
  }

  predicate BlockedOnEnvironment(ps: seq<Packets.Packet>) {
    exists k :: 0 <= k < |ps| && ps[k].status.Blocked?
                && (ps[k].kind.Setup? || ps[k].kind.Integration? || ps[k].kind.Verification?)
  }

  function FromHint(p: Scheduler.Progress): FinalStatus {
    match p.hint
    case Some(HintFailed) => FailedFinal
    case Some(HintBlocked) => BlockedFinal
    case Some(HintNeedsEnvironment) => NeedsEnvironment
    case None => if p.outcome.FailedTerminal? then FailedFinal else BlockedFinal
  }

  /** The status selection of `FinalReportBuilder.build`. */
  function StatusOf(i: Inputs): FinalStatus {
    if i.approvalDenied || i.policyBlocked then BlockedFinal
    else if i.researchFailed then ResearchFailed
    else if i.observationFailed then ObservationFailed
    else if i.acceptance.Some? then i.acceptance.value.final
    else if i.progression.Some? && i.progression.value.terminal then FromHint(i.progression.value)
    else if i.decomposition.Some? && Stuck(i.decomposition.value.packets) then
      if BlockedOnEnvironment(i.decomposition.value.packets)
         || (i.results.execution.Some? && BlocksEnvironment(i.results.execution.value.evidence))
      then NeedsEnvironment else BlockedFinal
    else if i.decomposition.Some? && Unfinished(i.decomposition.value.packets) then PartiallyCompleted
    else StatusFromResults(i.plan, i.results, i.completion)
  }

  function StatusFromResults(plan: Option<ExecutionPlan>, r: Results, completion: Option<FinalStatus>): FinalStatus {
    if r.execution.Some? && !r.execution.value.ok then
      if r.execution.value.stageFailure.Some? then AgentFailed else ExecutionFailed
    else if r.publish.Some? && !r.publish.value.ok then PublishFailed
    else if r.verification.Some? then
      if plan.Some? && plan.value.Mutates() then NeedsHumanReview
      else if completion.Some? then completion.value
      else if r.verification.value.passed then CompletedStatus
      else ExecutedUnverified
    else if r.execution.Some? then ImplementedOnly
    else PlannedOnly
  }

  /** `acceptance_from_lifecycle_violation`: recorded instead of an evaluation when a transition was
      denied. */
  function AcceptanceFromViolation(violations: seq<Lifecycle.Violation>): Decision {
    Decision(false, HumanReviewNeeded,
             if exists k :: 0 <= k < |violations|
                            && (violations[k].ExecuteNoUsableResult? || violations[k].PublishNoUsableResult?)
             then AgentFailed else ControlPlaneViolation,
             if violations == [] then [ObligationResult(0, RequiredEvidencePresent, ResultStatus.Blocked, false)]
             else seq(|violations|, k requires k >= 0 => ObligationResult(k, RequiredEvidencePresent, ResultStatus.Blocked, false)))
  }

  /** None of the early branches applies. */
  predicate Unhindered(i: Inputs) {
    !i.approvalDenied && !i.policyBlocked && !i.researchFailed && !i.observationFailed
  }

  /** Nothing before the results decides: no early branch, no acceptance, no progression that ended the
      run, and every packet there is completed or skipped. */
  predicate Undecided(i: Inputs) {
    && Unhindered(i) && i.acceptance.None? && (i.progression.Some? ==> !i.progression.value.terminal)
    && (i.decomposition.Some? ==>
          forall k :: 0 <= k < |i.decomposition.value.packets| ==>
            i.decomposition.value.packets[k].status in {Packets.Completed, Packets.Skipped})
  }

  predicate ExecutionWentWell(i: Inputs) { i.results.execution.Some? ==> i.results.execution.value.ok }

  predicate PublicationWentWell(i: Inputs) { i.results.publish.Some? ==> i.results.publish.value.ok }

  /** A plan that does not mutate is reported completed by an acceptance that says so; without one,
      exactly when nothing else decides, nothing went wrong, and the verifier's own status is completed or,
      where it gave none, it passed. */
  lemma CompletedWithoutMutationIff(i: Inputs)
    requires i.plan.Some? && !i.plan.value.requiresMutation && !i.plan.value.mustChangeWorld
    ensures i.acceptance.Some? ==>
              (StatusOf(i) == CompletedStatus <==> Unhindered(i) && i.acceptance.value.final == CompletedStatus)
    ensures i.acceptance.None? ==>
              (StatusOf(i) == CompletedStatus <==>
                 && Undecided(i) && ExecutionWentWell(i) && PublicationWentWell(i) && i.results.verification.Some?
                 && (i.completion == Some(CompletedStatus)
                     || (i.completion == None && i.results.verification.value.passed)))
  {
  }

  /** The early branches in their order, then the acceptance. */
  lemma EarlyStatuses(i: Inputs)
    ensures i.approvalDenied || i.policyBlocked ==> StatusOf(i) == BlockedFinal
    ensures !i.approvalDenied && !i.policyBlocked && i.researchFailed ==> StatusOf(i) == ResearchFailed
    ensures !i.approvalDenied && !i.policyBlocked && !i.researchFailed && i.observationFailed ==>
              StatusOf(i) == ObservationFailed
    ensures Unhindered(i) && i.acceptance.Some? ==> StatusOf(i) == i.acceptance.value.final
  {
  }

  /** A setup, integration or verification packet is blocked, or the execution names a missing
      environment. */
  predicate ShortOfEnvironment(i: Inputs, ps: seq<Packets.Packet>) {
    || (exists k :: 0 <= k < |ps| && ps[k].status == Packets.Blocked
                    && ps[k].kind in {Packets.Setup, Packets.Integration, Packets.Verification})
    || (i.results.execution.Some? &&
          var bs := i.results.execution.value.evidence.blockers;
          exists k :: 0 <= k < |bs| && bs[k].kind in {MissingEnvironmentDependency, MissingRuntimePrerequisite,
                                                      IntegrationEnvironmentUnavailable})
  }

  /** A run that progression or its packets stopped, without an acceptance: failed or short of an
      environment or blocked as progression hints; else stuck packets decide, then unfinished ones. */
  lemma StoppedStatuses(i: Inputs)
    requires Unhindered(i) && i.acceptance.None?
    ensures i.progression.Some? && i.progression.value.terminal ==>
              var p := i.progression.value;
              && (StatusOf(i) == FailedFinal <==>
                  p.hint == Some(Scheduler.HintFailed) || (p.hint == None && p.outcome == Scheduler.FailedTerminal))
              && (StatusOf(i) == NeedsEnvironment <==> p.hint == Some(Scheduler.HintNeedsEnvironment))
              && StatusOf(i) in {FailedFinal, NeedsEnvironment, BlockedFinal}
    ensures (i.progression.Some? ==> !i.progression.value.terminal) && i.decomposition.Some? ==>
              var ps := i.decomposition.value.packets;
              if exists k :: 0 <= k < |ps| && ps[k].status in {Packets.Blocked, Packets.Failed} then
                StatusOf(i) == if ShortOfEnvironment(i, ps) then NeedsEnvironment else BlockedFinal
              else (exists k :: 0 <= k < |ps| && ps[k].status in {Packets.Pending, Packets.InProgress}) ==>
                     StatusOf(i) == PartiallyCompleted
  {
    hide StatusFromResults;
    if i.decomposition.Some? {
      var ps := i.decomposition.value.packets;
      assert ShortOfEnvironment(i, ps) <==>
             BlockedOnEnvironment(ps)
             || (i.results.execution.Some? && BlocksEnvironment(i.results.execution.value.evidence));
      assert Stuck(ps) <==> exists k :: 0 <= k < |ps| && ps[k].status in {Packets.Blocked, Packets.Failed};
    }
  }

  /** What the results say when nothing before them decides. */
  lemma ResultStatuses(i: Inputs)
    requires Undecided(i)
    ensures !ExecutionWentWell(i) ==>
              StatusOf(i) == if i.results.execution.value.stageFailure.Some? then AgentFailed else ExecutionFailed
    ensures ExecutionWentWell(i) && !PublicationWentWell(i) ==> StatusOf(i) == PublishFailed
    ensures ExecutionWentWell(i) && PublicationWentWell(i) && i.results.verification.Some? ==>
              var mutates := i.plan.Some? && (i.plan.value.requiresMutation || i.plan.value.mustChangeWorld);
              && (mutates ==> StatusOf(i) == NeedsHumanReview)
              && (!mutates && i.completion.Some? ==> StatusOf(i) == i.completion.value)
              && (!mutates && i.completion.None? ==>
                    StatusOf(i) == if i.results.verification.value.passed then CompletedStatus else ExecutedUnverified)
    ensures ExecutionWentWell(i) && PublicationWentWell(i) && i.results.verification.None? ==>
              StatusOf(i) == if i.results.execution.Some? then ImplementedOnly else PlannedOnly
  {
  }

  /** For a mutating plan only an acceptance decision can report completion. */
  lemma CompletionNeedsAcceptance(i: Inputs)
    requires i.plan.Some? && i.plan.value.Mutates()
    ensures StatusOf(i) == CompletedStatus <==>
            Unhindered(i) && i.acceptance.Some? && i.acceptance.value.final == CompletedStatus
  {
  }

  /** A plan that does not mutate can be reported complete on the verifier's word alone. */
  lemma VerifierCanCompleteWithoutAcceptance(plan: ExecutionPlan, v: VerificationResult)
    requires !plan.Mutates() && v.passed
    ensures StatusOf(Inputs(false, false, false, false, None, None, None, Some(plan),
                            Results(None, Some(v), None), None)) == CompletedStatus
  {
  }

  /** Completion of a mutating plan is equivalent to every obligation of its contract being
      satisfied by the evidence, with nothing in the way. */
  lemma CompletedIff(i: Inputs, plan: ExecutionPlan, implementIntent: bool, obligations: Option<Obligations>,
                     items: seq<Obligation>, named: Obligation -> bool, d: Decision)
    requires plan.Mutates() && i.plan == Some(plan)
    requires IsContractFor(items, plan, implementIntent, obligations) && Evaluates(d, items, i.results, named)
    requires i.acceptance == Some(d)
    ensures StatusOf(i) == CompletedStatus <==>
            && Unhindered(i) && i.results.execution.Some?
            && forall k :: 0 <= k < |items| ==> Satisfies(items[k], i.results, named)
  {
    hide Prerequisites, Verdict, Satisfies, Judgement;
    CompletionNeedsAcceptance(i);
    if i.results.execution.Some? {
      Lifecycle.ContractsAreNotEmpty(items, plan, implementIntent, obligations);
      Lifecycle.PublishReadyIff(d, items, Prerequisites(plan, obligations), i.results, named);
    }
  }

  /** ... and to the raw results bearing out all that the plan, the intent and the discovered obligations
      ask for. */
  lemma CompletedIffEarned(i: Inputs, plan: ExecutionPlan, implementIntent: bool, obligations: Option<Obligations>,
                           items: seq<Obligation>, named: Obligation -> bool, d: Decision)
    requires plan.Mutates() && i.plan == Some(plan)
    requires IsContractFor(items, plan, implementIntent, obligations) && Evaluates(d, items, i.results, named)
    requires i.acceptance == Some(d)
    ensures StatusOf(i) == CompletedStatus <==>
            && Unhindered(i) && i.results.execution.Some?
            && Grounds.Earned(plan, implementIntent, obligations, items, i.results, named)
  {
    hide Prerequisites, Verdict, Judgement, Grounds.Earned;
    CompletionNeedsAcceptance(i);
    if i.results.execution.Some? {
      Grounds.AcceptedIffEarned(d, plan, implementIntent, obligations, items, i.results, named);
    }
  }

  /** Every test and command of this evidence is free of failure. */
  ghost predicate FailureFree(e: StructuredEvidence) {
    && (forall k :: 0 <= k < |e.tests| ==> !e.tests[k].status.Fails())
    && (forall k :: 0 <= k < |e.commands| ==> e.commands[k].exitCode == None || e.commands[k].exitCode == Some(0))
  }

  lemma NothingFailsAnywhere(r: Results, k: nat)
    requires forall w: Word :: w.Fails() ==> !Reports(r, {}, w)
    requires k < |r.Evidences()|
    ensures FailureFree(r.Evidences()[k])
    ensures r.verification.Some? ==> r.verification.value.checksFailed == []
  {
    var e := r.Evidences()[k];
    assert TargetLevels({}) == {} && TargetRoles({}) == {};
    forall j | 0 <= j < |e.tests| ensures !e.tests[j].status.Fails() {
      assert TestReports(e, {}, e.tests[j].status);
    }
    forall j | 0 <= j < |e.commands|
      ensures e.commands[j].exitCode == None || e.commands[j].exitCode == Some(0)
    {
      if e.commands[j].exitCode.Some? {
        var w := ExitWord(e.commands[j].exitCode.value);
        assert CommandReports(e, {}, w);
        assert Reports(r, {}, w);
      }
    }
    assert !Reports(r, {}, FailedWord);
  }

  /** No false success: a mutating plan with a required test level or check is reported complete
      only on an accepted decision, with mutation evidence, with some check passed and none failed
      in any result, no failing command, and nothing anywhere, including the verifier's own missing
      test levels and obligation results, that counts as an environment blocker. A required build or
      integration level is clean in its own tests and commands, and required setup is shown to have
      worked. */
  lemma NoFalseSuccess(i: Inputs, plan: ExecutionPlan, implementIntent: bool, obligations: Option<Obligations>,
                       items: seq<Obligation>, named: Obligation -> bool, d: Decision)
    requires plan.Mutates() && (plan.testLevels != [] || plan.checks != [])
    requires i.plan == Some(plan) && i.acceptance == Some(d)
    requires IsContractFor(items, plan, implementIntent, obligations) && Evaluates(d, items, i.results, named)
    requires StatusOf(i) == CompletedStatus
    ensures d.accepted && d.status == Accepted
    ensures i.results.execution.Some? && MutationEvidence(i.results.execution.value)
    ensures exists w: Word :: w.Passes() && Reports(i.results, {}, w)
    ensures forall k :: 0 <= k < |i.results.Evidences()| ==> FailureFree(i.results.Evidences()[k])
    ensures i.results.verification.Some? ==>
              i.results.verification.value.checksFailed == [] && i.results.verification.value.missingSetup == []
    ensures forall k :: 0 <= k < |i.results.Evidences()| ==> !BlocksEnvironment(i.results.Evidences()[k])
    ensures !EnvironmentBlocked(i.results)
    ensures Grounds.Wants(plan.testLevels, {BuildTests, CompileTests}) ==>
              Grounds.Clean(i.results, {BuildLevel}, {BuildCommand})
    ensures Grounds.Wants(plan.testLevels, {IntegrationTests, SmokeTests, E2eTests, EndToEndTests}) ==>
              Grounds.IntegrationClean(i.results)
    ensures Prerequisites(plan, obligations) != [] ==> Grounds.SetupShown(i.results)
  {
    hide Prerequisites, Verdict, Judgement, PrerequisitesProved, Reports, Grounds.Clean, Grounds.SetupShown, Grounds.Wants,
         Grounds.Earned, Grounds.IntegrationClean;
    CompletedIffEarned(i, plan, implementIntent, obligations, items, named, d);
    Grounds.EarnedIsClean(plan, implementIntent, obligations, items, i.results, named);
    CompletedIff(i, plan, implementIntent, obligations, items, named, d);
    CompletionNeedsAcceptance(i);
    assert CodeChanged in Kinds(items) && RelevantTestsPassed in Kinds(items);
    var c :| 0 <= c < |items| && items[c].kind.CodeChanged?;
    assert Satisfies(items[c], i.results, named);
    var p :| 0 <= p < |items| && items[p].kind.RelevantTestsPassed?;
    assert Satisfies(items[p], i.results, named);
    forall k | 0 <= k < |i.results.Evidences()|
      ensures FailureFree(i.results.Evidences()[k])
      ensures i.results.verification.Some? ==> i.results.verification.value.checksFailed == []
    {
      NothingFailsAnywhere(i.results, k);
    }
    if i.results.verification.Some? {
      NothingFailsAnywhere(i.results, 0);
    }
  }

  /** The acceptance recorded for a denied transition: one result per violation, blocked, and the fault of
      the agent exactly when some stage gave nothing usable. */
  lemma ViolationStatusIff(violations: seq<Lifecycle.Violation>)
    ensures var d := AcceptanceFromViolation(violations);
            && !d.accepted && |d.results| == (if violations == [] then 1 else |violations|)
            && (forall k :: 0 <= k < |d.results| ==> d.results[k].status == Blocked && d.results[k].id == k)
            && (d.final == AgentFailed <==>
                Lifecycle.ExecuteNoUsableResult in violations || Lifecycle.PublishNoUsableResult in violations)
            && (d.final != AgentFailed ==> d.final == ControlPlaneViolation)
  {
  }

  /** So an execution that is not let through is reported as the agent's failure exactly when it gave no
      usable result. */
  lemma DeniedExecutionStatus(f: Lifecycle.Facts)
    requires !Lifecycle.AfterExecution(f, Lifecycle.Fallback).allowed
    ensures AcceptanceFromViolation(Lifecycle.AfterExecution(f, Lifecycle.Fallback).violations).final
            == if f.executionStageFailed then AgentFailed else ControlPlaneViolation
  {
    ViolationStatusIff(Lifecycle.AfterExecution(f, Lifecycle.Fallback).violations);
    Lifecycle.ViolationsMean(Lifecycle.CanLeaveExecute, f, Lifecycle.ExecuteNoUsableResult);
    Lifecycle.ViolationsMean(Lifecycle.CanLeaveExecute, f, Lifecycle.PublishNoUsableResult);
    hide Lifecycle.Violations, AcceptanceFromViolation;
  }

  /** A denied transition never turns into success. */
  lemma ViolationsNeverComplete(i: Inputs, violations: seq<Lifecycle.Violation>)
    requires i.acceptance == Some(AcceptanceFromViolation(violations))
    ensures StatusOf(i) != CompletedStatus
  {
  }
}
