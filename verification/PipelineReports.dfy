/** What the report of a finished run stands for. */
module PipelineReports {
  import opened Prelude
  import opened Topology
  import opened Acceptance
  import opened Evaluation
  import opened Pipeline
  import opened PipelineSafety
  import Checks
  import Evidence
  import Grounds
  import Lifecycle
  import Report

  /** The report is assembled from this state; its early branches and the decomposition are left
      open. */
  predicate ReportsOn(i: Report.Inputs, s: State) {
    i.acceptance == s.acceptance && i.plan == s.plan && i.results == s.Results()
  }

  /** Mutation evidence, a passed check, and nothing failed or blocked in any of these results. */
  ghost predicate Substantiated(r: Results) {
    && r.execution.Some? && Evidence.MutationEvidence(r.execution.value)
    && (exists w: Evidence.Word :: w.Passes() && Checks.Reports(r, {}, w))
    && (forall k :: 0 <= k < |r.Evidences()| ==>
          Report.FailureFree(r.Evidences()[k]) && !Evidence.BlocksEnvironment(r.Evidences()[k]))
    && (r.verification.Some? ==> r.verification.value.checksFailed == [] && r.verification.value.missingSetup == [])
    && !Checks.EnvironmentBlocked(r)
  }

  /** An accepting verdict substantiates the results it was taken on. */
  lemma VerdictSubstantiates(c: Setting, s: State, i: Report.Inputs, r: Results)
    requires ContractKept(c, s) && ReportsOn(i, s) && s.plan.Some? && s.plan.value.Mutates()
    requires s.plan.value.testLevels != [] || s.plan.value.checks != []
    requires VerdictOn(s.acceptance, s.contract, r) && Report.StatusOf(i) == CompletedStatus
    ensures Substantiated(r) && NoneBlocked(s.acceptance.value)
  {
    hide Report.StatusOf, IsContractFor, Evaluates, Report.FailureFree, Checks.Reports, Evidence.BlocksEnvironment,
         Checks.EnvironmentBlocked, NoneBlocked;
    var named :| Evaluates(s.acceptance.value, s.contract.value, r, named);
    var j := i.(results := r);
    Report.CompletionNeedsAcceptance(i);
    Report.CompletionNeedsAcceptance(j);
    Report.NoFalseSuccess(j, s.plan.value, c.implementIntent, s.obligations, s.contract.value, named, s.acceptance.value);
    Report.CompletedIff(j, s.plan.value, c.implementIntent, s.obligations, s.contract.value, named, s.acceptance.value);
    SatisfiedIsNotBlocked(s.acceptance.value, s.contract.value, r, named);
  }

  predicate NoneBlocked(d: Decision) {
    forall k :: 0 <= k < |d.results| ==> !d.results[k].environmentBlocker
  }

  lemma SatisfiedIsNotBlocked(d: Decision, items: seq<Obligation>, r: Results, named: Obligation -> bool)
    requires Evaluates(d, items, r, named) && forall k :: 0 <= k < |items| ==> Satisfies(items[k], r, named)
    ensures NoneBlocked(d)
  {
    hide Satisfies, Verdict, Decide;
    forall k | 0 <= k < |items| ensures !Judgement(items[k], r, named).environmentBlocker {
      PassesIffSatisfied(items[k], r, named);
    }
  }

  /** No run of a mutating, checked plan reports success without an accepted decision whose
      evidence is in the state: the whole evidence, or, when the transition after publication was
      denied, the evidence from before publication. */
  lemma RunsReportHonestly(c: Setting, ss: seq<State>, i: Report.Inputs)
    requires Run(c, ss) && Lifecycle.AllowsNoMore(c.evaluate)
    requires var s := ss[|ss| - 1];
             && s.node in {Finalize, End} && s.plan.Some? && s.plan.value.Mutates()
             && (s.plan.value.testLevels != [] || s.plan.value.checks != [])
             && ReportsOn(i, s) && Report.StatusOf(i) == CompletedStatus
    ensures var s := ss[|ss| - 1];
            && s.acceptance.Some? && s.acceptance.value.accepted
            && (Substantiated(s.Results()) || (PublicationDenied(c, s) && Substantiated(s.BeforePublish())))
  {
    hide Step, Report.StatusOf, Evaluates, Substantiated, PublishReview, IsContractFor, Report.AcceptanceFromViolation,
         NoneBlocked;
    var s := ss[|ss| - 1];
    InvariantInRuns(c, ss, |ss| - 1);
    Report.CompletionNeedsAcceptance(i);
    if violations :| s.acceptance == Some(Report.AcceptanceFromViolation(violations)) {
      Report.ViolationsNeverComplete(i, violations);
    } else if s.publish.Some? && VerdictOn(s.acceptance, s.contract, s.Results()) {
      VerdictSubstantiates(c, s, i, s.Results());
      OnlyAcceptedCompletes(s, s.Results());
    } else {
      VerdictSubstantiates(c, s, i, s.BeforePublish());
      OnlyAcceptedCompletes(s, s.BeforePublish());
      if s.publish.None? { ObligationResultsDoNotMatter(s); }
    }
  }

  /** Without a publication the evidence acceptance saw is all there is. */
  lemma ObligationResultsDoNotMatter(s: State)
    requires s.publish.None? && Substantiated(s.BeforePublish()) && Copied(s) && NoneBlocked(s.acceptance.value)
    ensures Substantiated(s.Results())
  {
    hide Report.FailureFree, Evidence.BlocksEnvironment, Checks.TestReports, Checks.CommandReports, HasLevel;
    assert s.Results().Evidences() == s.BeforePublish().Evidences();
    var w: Evidence.Word :| w.Passes() && Checks.Reports(s.BeforePublish(), {}, w);
    assert Checks.Reports(s.Results(), {}, w);
  }

  lemma OnlyAcceptedCompletes(s: State, r: Results)
    requires VerdictOn(s.acceptance, s.contract, r) && s.acceptance.value.final == CompletedStatus
    ensures s.acceptance.value.accepted
  {
  }

  /** ... and all that the plan, the intent and the discovered obligations ask for is borne out by those
      same results, for some outcome of the text search. */
  lemma RunsEarnTheirCompletion(c: Setting, ss: seq<State>, i: Report.Inputs) returns (named: Obligation -> bool)
    requires Run(c, ss) && Lifecycle.AllowsNoMore(c.evaluate)
    requires var s := ss[|ss| - 1];
             && s.node in {Finalize, End} && s.plan.Some? && s.plan.value.Mutates()
             && ReportsOn(i, s) && Report.StatusOf(i) == CompletedStatus
    ensures var s := ss[|ss| - 1];
            && s.contract.Some?
            && (Grounds.Earned(s.plan.value, c.implementIntent, s.obligations, s.contract.value, s.Results(), named)
                || ((s.publish.None? || PublicationDenied(c, s))
                    && Grounds.Earned(s.plan.value, c.implementIntent, s.obligations, s.contract.value, s.BeforePublish(),
                                      named)))
  {
    hide Step, Report.StatusOf, Evaluates, PublishReview, IsContractFor, Report.AcceptanceFromViolation, Grounds.Earned;
    var s := ss[|ss| - 1];
    InvariantInRuns(c, ss, |ss| - 1);
    Report.CompletionNeedsAcceptance(i);
    if violations :| s.acceptance == Some(Report.AcceptanceFromViolation(violations)) {
      Report.ViolationsNeverComplete(i, violations);
    } else if s.publish.Some? && VerdictOn(s.acceptance, s.contract, s.Results()) {
      named := VerdictIsEarned(c, s, i, s.Results());
    } else {
      named := VerdictIsEarned(c, s, i, s.BeforePublish());
    }
  }

  lemma VerdictIsEarned(c: Setting, s: State, i: Report.Inputs, r: Results) returns (named: Obligation -> bool)
    requires ContractKept(c, s) && ReportsOn(i, s) && s.plan.Some? && s.plan.value.Mutates()
    requires VerdictOn(s.acceptance, s.contract, r) && Report.StatusOf(i) == CompletedStatus
    ensures Grounds.Earned(s.plan.value, c.implementIntent, s.obligations, s.contract.value, r, named)
  {
    hide Report.StatusOf, Evaluates, Grounds.Earned, IsContractFor;
    named :| Evaluates(s.acceptance.value, s.contract.value, r, named);
    var j := i.(results := r);
    Report.CompletionNeedsAcceptance(i);
    Report.CompletionNeedsAcceptance(j);
    Report.CompletedIffEarned(j, s.plan.value, c.implementIntent, s.obligations, s.contract.value, named,
                              s.acceptance.value);
  }

  // ----- after a publication that went wrong -----

  /** The verifier's own claim that what had to be committed and pushed already was. */
  predicate ClaimsPublished(v: Option<VerificationResult>) {
    && v.Some? && (v.value.commitRequired || v.value.pushRequired)
    && (v.value.commitRequired ==> v.value.commitDone) && (v.value.pushRequired ==> v.value.pushDone)
  }

  /** When the transition after publication is denied the acceptance is not evaluated again. The
      report then says completed exactly if the verifier had claimed, before publication, that it
      was already done: the failed publication itself is not reported. */
  lemma CompletedAfterDeniedPublicationIff(c: Setting, ss: seq<State>, i: Report.Inputs)
    requires Run(c, ss) && Lifecycle.AllowsNoMore(c.evaluate) && |ss| >= 2
    requires var s, s' := ss[|ss| - 2], ss[|ss| - 1];
             && s.node == PostPublishVerify && s'.node == Finalize
             && PublicationDenied(c, s') && s'.plan.value.Mutates() && ReportsOn(i, s')
    ensures Report.StatusOf(i) == CompletedStatus <==>
            Report.Unhindered(i) && ClaimsPublished(ss[|ss| - 1].verification)
  {
    hide Report.StatusOf, Evaluates, IsContractFor, PublishReview, Lifecycle.MayPublish;
    var s, s' := ss[|ss| - 2], ss[|ss| - 1];
    assert Step(c, s, s');
    var text :| ReviewsPublish(c, s, s', text);
    InvariantInRuns(c, ss, |ss| - 2);
    assert PublishReview(c, s') == PublishReview(c, s) by { SameReview(c, s, s'); }
    var named :| Evaluates(s.acceptance.value, s.contract.value, s.BeforePublish(), named)
                 && Lifecycle.MayPublish(s.plan.value, s.contract.value, s.BeforePublish(), named);
    GateIsReady(c, s, named);
    CompletesIffAccepted(s, named);
    assert PublishDone(s.BeforePublish()) <==> ClaimsPublished(s.verification);
    Report.CompletionNeedsAcceptance(i);
  }

  lemma SameReview(c: Setting, s: State, s': State)
    requires s.plan.Some? && s.plan == s'.plan && s.execution == s'.execution && s.publish == s'.publish
    requires s.repairs == s'.repairs
    ensures PublishReview(c, s') == PublishReview(c, s)
  {
  }

  lemma CompletesIffAccepted(s: State, named: Obligation -> bool)
    requires s.acceptance.Some? && s.contract.Some?
    requires Evaluates(s.acceptance.value, s.contract.value, s.BeforePublish(), named)
    ensures s.acceptance.value.final == CompletedStatus <==> s.acceptance.value.accepted
  {
  }

  /** A completed run that had to publish did: its publication succeeded, or the verifier claimed that
      what had to be committed and pushed already was. */
  lemma CompletedMeansPublished(c: Setting, ss: seq<State>, i: Report.Inputs)
    requires Run(c, ss) && Lifecycle.AllowsNoMore(c.evaluate)
    requires var s := ss[|ss| - 1];
             && s.node in {Finalize, End} && s.plan.Some? && s.plan.value.Mutates() && s.plan.value.MustPublish()
             && ReportsOn(i, s) && Report.StatusOf(i) == CompletedStatus
    ensures var s := ss[|ss| - 1];
            (s.publish.Some? && s.publish.value.ok) || ClaimsPublished(s.verification)
  {
    hide Step, Report.StatusOf, Evaluates, PublishReview, IsContractFor, Report.AcceptanceFromViolation;
    var s := ss[|ss| - 1];
    InvariantInRuns(c, ss, |ss| - 1);
    Report.CompletionNeedsAcceptance(i);
    if violations :| s.acceptance == Some(Report.AcceptanceFromViolation(violations)) {
      Report.ViolationsNeverComplete(i, violations);
    } else if s.publish.Some? && VerdictOn(s.acceptance, s.contract, s.Results()) {
      VerdictNeedsPublication(c, s, i, s.Results());
    } else {
      VerdictNeedsPublication(c, s, i, s.BeforePublish());
    }
  }

  lemma VerdictNeedsPublication(c: Setting, s: State, i: Report.Inputs, r: Results)
    requires ContractKept(c, s) && ReportsOn(i, s)
    requires s.plan.Some? && s.plan.value.Mutates() && s.plan.value.MustPublish()
    requires VerdictOn(s.acceptance, s.contract, r) && Report.StatusOf(i) == CompletedStatus
    ensures PublishDone(r)
  {
    hide Report.StatusOf, Evaluates, PublishDone;
    var named :| Evaluates(s.acceptance.value, s.contract.value, r, named);
    var j := i.(results := r);
    Report.CompletionNeedsAcceptance(i);
    Report.CompletionNeedsAcceptance(j);
    Report.CompletedIff(j, s.plan.value, c.implementIntent, s.obligations, s.contract.value, named, s.acceptance.value);
    var items := s.contract.value;
    assert PublishSatisfied in Kinds(items);
    var p :| 0 <= p < |items| && items[p].kind.PublishSatisfied?;
    assert Satisfies(items[p], r, named);
  }
}
