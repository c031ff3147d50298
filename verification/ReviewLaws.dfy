/** Where review sends a run, read off the raw execution result. */
module ReviewLaws {
  import opened Prelude
  import opened Topology
  import opened Pipeline
  import Acceptance
  import AgentRetry
  import Checks
  import Evaluation
  import Evidence
  import Lifecycle
  import LoopPolicy
  import Packets
  import PipelineReports
  import PipelineSafety
  import Report
  import Scheduler

  /** Something is left to repair: no usable result, a failed or blocked one, or a test that failed. */
  predicate Unsound(e: Evidence.ExecutionResult) {
    || e.stageFailure.Some? || !e.ok || e.status in {Evidence.FailedStatus, Evidence.BlockedStatus}
    || exists k :: 0 <= k < |e.evidence.tests|
                   && (e.evidence.tests[k].status in {Evidence.FailedWord, Evidence.ErrorWord}
                       || e.evidence.tests[k].passed == Some(false))
  }

  /** The stage gave nothing usable or did what only publication may do. */
  predicate Strayed(e: Evidence.ExecutionResult) {
    e.stageFailure.Some? || e.createdPullRequest || e.pushedGit || e.committedGit
  }

  /** A retryable agent failure with budget left; a stored budget of zero stands for three. */
  predicate MayRetry(c: Setting, s: State) {
    && s.execution.Some? && s.execution.value.stageFailure.Some? && s.execution.value.stageFailure.value.retryable
    && s.retries < if c.storedRetryBudget == 0 then 3 else c.storedRetryBudget
  }

  lemma RetryMeans(c: Setting, s: State)
    requires s.execution.Some?
    ensures RetryDecision(c, s).allowed <==> MayRetry(c, s)
    ensures RetryDecision(c, s).allowed ==> RetryDecision(c, s).next == s.retries + 1
  {
    AgentRetry.RetryableIffFlagged(s.execution.value.stageFailure);
  }

  lemma StrayedMeans(c: Setting, s: State)
    requires s.plan.Some? && s.execution.Some? && c.evaluate == Lifecycle.Fallback
    ensures ExecutionReview(c, s).allowed <==> !Strayed(s.execution.value)
    ensures !ExecutionReview(c, s).allowed ==>
              Report.AcceptanceFromViolation(ExecutionReview(c, s).violations).final
              == if s.execution.value.stageFailure.Some? then Evaluation.AgentFailed else Evaluation.ControlPlaneViolation
  {
    hide Checks.EnvironmentBlocked, Checks.PassedFor, Acceptance.HasLevel, Report.AcceptanceFromViolation;
    var f := Lifecycle.FactsFor(s.plan.value, Acceptance.Results(s.execution, None, None), None, 0, MAX_REPAIRS);
    if !ExecutionReview(c, s).allowed { Report.DeniedExecutionStatus(f); }
  }

  lemma UnsoundMeans(e: Evidence.ExecutionResult)
    ensures Repairable(e) <==> Unsound(e)
  {
  }

  /** Review retries an agent failure while the budget lasts and puts the active packet back; it ends a run
      whose execution strayed, recording whose fault it was; it sends an unsound result to repair; and
      only a sound one goes on, unless its texts are taken for a failure. */
  lemma ReviewMeans(c: Setting, s: State, s': State, marked: bool)
    requires s.node == Review && s.plan.Some? && s.execution.Some? && c.evaluate == Lifecycle.Fallback
    requires Reviews(c, s, s', marked)
    ensures var e := s.execution.value;
            && (MayRetry(c, s) ==>
                  s'.node == Execute && s'.retries == s.retries + 1
                  && s'.packets == (if s.packets.Some? then Some(SetStatus(s.packets.value, s.active, Packets.Pending))
                                    else None))
            && (!MayRetry(c, s) ==>
                  && s'.retries == s.retries && s'.packets == s.packets
                  && (Strayed(e) ==>
                        s'.node == Finalize
                        && (s.contract.Some? ==>
                              s'.acceptance.Some? && !s'.acceptance.value.accepted
                              && s'.acceptance.value.final == if e.stageFailure.Some? then Evaluation.AgentFailed
                                                              else Evaluation.ControlPlaneViolation))
                  && (!Strayed(e) ==> s'.acceptance == s.acceptance)
                  && (!Strayed(e) && Unsound(e) ==> s'.node == Repair)
                  && (!Strayed(e) && !Unsound(e) && !marked ==>
                        s'.node == if s.packets.None? then QaPlan
                                   else AfterProgression(Scheduler.Progression(s.packets.value, s.strategy).nextStage)))
  {
    RetryMeans(c, s);
    StrayedMeans(c, s);
    UnsoundMeans(s.execution.value);
    Report.ViolationStatusIff(ExecutionReview(c, s).violations);
    hide ExecutionReview, RetryDecision, Repairable, SetStatus, Scheduler.Progression, Report.AcceptanceFromViolation;
  }

  // ----- over whole runs -----

  /** In every run, an execution that strayed and is not retried ends the run, and the report blames the
      agent exactly when it gave nothing usable. */
  lemma StrayingIsReported(c: Setting, ss: seq<State>, i: nat, report: Report.Inputs)
    requires Run(c, ss) && c.evaluate == Lifecycle.Fallback && i + 1 < |ss|
    requires ss[i].node == Review && ss[i].execution.Some? && Strayed(ss[i].execution.value) && !MayRetry(c, ss[i])
    requires PipelineReports.ReportsOn(report, ss[i + 1]) && Report.Unhindered(report)
    ensures ss[i + 1].node == Finalize
    ensures Report.StatusOf(report)
            == if ss[i].execution.value.stageFailure.Some? then Evaluation.AgentFailed else Evaluation.ControlPlaneViolation
  {
    hide Reviews, Report.StatusOf, MayRetry, Strayed;
    Lifecycle.BuiltInEvaluatorsAllowNoMore();
    PipelineSafety.InvariantInRuns(c, ss, i);
    assert Step(c, ss[i], ss[i + 1]);
    var marked :| Reviews(c, ss[i], ss[i + 1], marked);
    ReviewMeans(c, ss[i], ss[i + 1], marked);
    Report.EarlyStatuses(report);
  }

  /** In every run, a verification that passed is not answered by a repair; without a trigger it leads to
      acceptance. */
  lemma PassedVerificationIsAccepted(c: Setting, ss: seq<State>, i: nat)
    requires Run(c, ss) && Lifecycle.AllowsNoMore(c.evaluate) && i + 1 < |ss|
    requires ss[i].node == QaReview && ss[i + 1].verification.Some? && ss[i + 1].verification.value.passed
    ensures ss[i + 1].node != Repair
    ensures ss[i].plan.Some?
    ensures var seen := ss[i].(verification := ss[i + 1].verification);
            PipelineSafety.Trigger(c, seen) == LoopPolicy.NoTrigger ==> ss[i + 1].node == Node.Acceptance
  {
    var s, s' := ss[i], ss[i + 1];
    hide Lifecycle.AllowsNoMore, Asked, ClearedFor, PipelineSafety.Trigger;
    assert Step(c, s, s');
    var qa, d :| ReviewsQa(c, s, s', qa, d);
    assert !qa.QaFailCode? && qa.QaPass?;
    PipelineSafety.InvariantInRuns(c, ss, i);
    var seen := s.(verification := s'.verification);
    assert seen.(publish := None) == seen by { NotPublishedYet(c, s); }
    PipelineSafety.AskedGoesOnIff(c, seen, "verify", d);
    ReentriesAreWired(c, seen, "verify", d);
  }

  lemma NotPublishedYet(c: Setting, s: State)
    requires PipelineSafety.Invariant(c, s) && s.node == QaReview
    ensures s.publish == None
  {
  }

  /** In every run, under every evaluator that allows no more than the in-process one, only a sound result
      that kept to its stage gets to QA. */
  lemma OnlySoundResultsReachQa(c: Setting, ss: seq<State>, i: nat)
    requires Run(c, ss) && Lifecycle.AllowsNoMore(c.evaluate) && i + 1 < |ss|
    requires ss[i].node == Review && ss[i + 1].node == QaPlan
    ensures ss[i].execution.Some? && !Unsound(ss[i].execution.value) && !Strayed(ss[i].execution.value)
  {
    var s, s' := ss[i], ss[i + 1];
    hide Lifecycle.AllowsNoMore, RetryDecision, ExecutionReview, Repairable, Scheduler.Progression, SetStatus;
    assert Step(c, s, s');
    var marked :| Reviews(c, s, s', marked);
    UnsoundMeans(s.execution.value);
    StrayedIsDenied(c, s);
  }

  lemma StrayedIsDenied(c: Setting, s: State)
    requires Lifecycle.AllowsNoMore(c.evaluate) && s.plan.Some? && s.execution.Some?
    ensures Strayed(s.execution.value) ==> !ExecutionReview(c, s).allowed
  {
    hide Checks.EnvironmentBlocked, Checks.PassedFor, Acceptance.HasLevel, Lifecycle.AllowsNoMore;
    if Strayed(s.execution.value) {
      Lifecycle.ExecutionMustNotPublish(
        Lifecycle.FactsFor(s.plan.value, Acceptance.Results(s.execution, None, None), None, 0, MAX_REPAIRS), c.evaluate);
    }
  }
}
