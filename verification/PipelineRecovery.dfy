/** The runs of the workflow are the traces recovery is about, and what that says of a publication
    that was interrupted. */
module PipelineRecovery {
  import opened Prelude
  import opened Topology
  import opened Pipeline
  import opened Recovery
  import Acceptance
  import DataFlow
  import Evaluation
  import Lifecycle
  import LoopPolicy
  import PipelineReports
  import PipelineSafety
  import Scheduler

  /** The visit describes this step: where it was and went, what review and acceptance saw, and that
      the strategy only changes with a checkpoint. */
  predicate Matches(s: State, s': State, v: Visit) {
    && v.Possible() && v.Node() == s.node && v.Live() == s'.node
    && (v.AtReview? && v.review.ReviewPass? ==> v.decomposition == s.packets && v.active == s.strategy)
    && (v.AtAcceptance? ==> s'.acceptance.Some? && v.accepted == s'.acceptance.value.accepted)
    && (s'.strategy != s.strategy ==> v.Checkpoints() || v.AtRepair?)
  }

  lemma VisitsWithoutDecision(c: Setting, s: State, s': State) returns (v: Visit)
    requires Passes(s, s') || DoesResearch(s, s') || DerivesObligations(s, s') || Publishes(s, s')
    ensures Matches(s, s', v)
  {
    match s.node
    case Route => v := AtRoute(Needs(s'.node == Research, s'.node == Observe), false);
    case Research => v := AtResearch(s'.node != Finalize, false, Needs(false, s'.node == Observe));
    case Observe => v := AtObserve(s'.node != Finalize, s'.node == Research);
    case Policy => v := AtPolicy(PolicyVerdict(s'.node == Finalize, s'.node == Approval));
    case Approval => v := AtApproval(Some(s'.node == WorkspacePrepare));
    case WorkspacePrepare => v := AtWorkspacePrepare;
    case _ => v := Plain(s.node);
  }

  lemma VisitOfReview(c: Setting, s: State, s': State, marked: bool) returns (v: Visit)
    requires s.node == Review && s.plan.Some? && s.execution.Some? && Reviews(c, s, s', marked)
    ensures Matches(s, s', v)
  {
    hide Scheduler.Progression, SetStatus, ExecutionReview, Repairable, RetryDecision;
    var status := if RetryDecision(c, s).allowed then ReviewRetry
                  else if !ExecutionReview(c, s).allowed then ReviewViolation
                  else if Repairable(s.execution.value) || marked then ReviewFailCode
                  else ReviewPass;
    v := AtReview(status, s.packets, s.strategy, true);
  }

  lemma VisitOfQaReview(c: Setting, s: State, s': State, qa: QaVerdict, d: LoopPolicy.Decision) returns (v: Visit)
    requires s.node == QaReview && s.plan.Some? && ReviewsQa(c, s, s', qa, d)
    ensures Matches(s, s', v)
  {
    hide Asked, ClearedFor;
    v := AtQaReview(qa, d.target, true);
    if !qa.QaFailCode? {
      PossibleTargets(c, s.(verification := s'.verification).(publish := None), "verify", d);
    }
  }

  lemma PossibleTargets(c: Setting, s: State, source: string, d: LoopPolicy.Decision)
    requires s.plan.Some? && Asked(c, s, source, d)
    ensures !d.target.ToExecute? && !d.target.ToVerify?
    ensures NodeOf(d.target).Some? ==>
              NodeOf(d.target).value in {Research, Observe, BuildContext, Node.Obligations, Plan, Finalize}
  {
    hide LoopPolicy.Exhausted;
  }

  lemma VisitOfAcceptance(c: Setting, s: State, s': State, named: Acceptance.Obligation -> bool, d: LoopPolicy.Decision)
    returns (v: Visit)
    requires s.node == Node.Acceptance && s.plan.Some? && s.contract.Some? && Accepts(c, s, s', named, d)
    ensures Matches(s, s', v)
  {
    hide Asked, Evaluation.Evaluates, Lifecycle.FactsFor, Lifecycle.AfterAcceptance;
    v := AtAcceptance(d.target, s'.node == Publish, s'.acceptance.value.accepted);
    PossibleTargets(c, s, "acceptance", d);
  }

  lemma VisitOfPublishReview(c: Setting, s: State, s': State, named: Acceptance.Obligation -> bool) returns (v: Visit)
    requires s.node == PostPublishVerify && s.plan.Some? && ReviewsPublish(c, s, s', named)
    ensures Matches(s, s', v)
  {
    hide Evaluation.Evaluates, Lifecycle.FactsFor;
    v := AtPostPublish(PublishReview(c, s).next);
  }

  /** Every step of the workflow is a visit of the recovery model: the two routers agree. */
  lemma EveryStepIsAVisit(c: Setting, s: State, s': State) returns (v: Visit)
    requires Step(c, s, s')
    ensures Matches(s, s', v)
  {
    hide Matches, Reviews, ReviewsQa, Accepts, ReviewsPublish, Passes, DoesResearch, DerivesObligations, Publishes;
    match s.node
    case Review =>
      var marked :| Reviews(c, s, s', marked);
      v := VisitOfReview(c, s, s', marked);
    case QaReview =>
      var qa, d :| ReviewsQa(c, s, s', qa, d);
      v := VisitOfQaReview(c, s, s', qa, d);
    case Acceptance =>
      var named, d :| Accepts(c, s, s', named, d);
      v := VisitOfAcceptance(c, s, s', named, d);
    case PostPublishVerify =>
      var named :| ReviewsPublish(c, s, s', named);
      v := VisitOfPublishReview(c, s, s', named);
    case Plan | Execute | Repair => v := VisitOfWork(c, s, s');
    case _ => v := VisitsWithoutDecision(c, s, s');
  }

  lemma VisitOfWork(c: Setting, s: State, s': State) returns (v: Visit)
    requires Plans(c, s, s') || Executes(s, s') || Repairs(s, s')
    ensures Matches(s, s', v)
  {
    hide Acceptance.IsContractFor, IsPlanned, Scheduler.Select, SetStatus, Leaves, KindOf;
    v := if s.node == Plan then AtPlan else if s.node == Execute then AtExecute else AtRepair;
  }

  // ----- the fields a step resets -----

  /** A re-entry and its denial reset exactly the fields the stage contracts are checked against. */
  lemma ClearingAgrees(s: State, target: Node)
    requires target in {Research, Observe, BuildContext, Node.Obligations, Plan, Finalize}
    ensures var t := ClearedFor(s, target);
            && t.obligations == (if DataFlow.Clears(target, DataFlow.ObligationsField) then None else s.obligations)
            && t.plan == (if DataFlow.Clears(target, DataFlow.PlanField) then None else s.plan)
            && t.contract == (if DataFlow.Clears(target, DataFlow.AcceptanceContract) then None else s.contract)
            && t.packets == (if DataFlow.Clears(target, DataFlow.DecompositionPlan) then None else s.packets)
            && t.active == (if DataFlow.Clears(target, DataFlow.ActivePacketId) then None else s.active)
            && t.publish == (if DataFlow.Clears(target, DataFlow.PublishResult) then None else s.publish)
            && t.verification == (if DataFlow.Clears(target, DataFlow.VerificationResult) then None else s.verification)
            && t.acceptance == (if DataFlow.Clears(target, DataFlow.AcceptanceDecision) then None else s.acceptance)
            && t.execution == (if DataFlow.Clears(target, DataFlow.ExecutionResult) then None else s.execution)
  {
  }

  /** So does a repair. */
  lemma RepairAgrees(s: State, s': State)
    requires Repairs(s, s')
    ensures s'.publish == if DataFlow.StaleAfterRepair(DataFlow.PublishResult) then None else s.publish
    ensures s'.verification == if DataFlow.StaleAfterRepair(DataFlow.VerificationResult) then None else s.verification
    ensures s'.acceptance == if DataFlow.StaleAfterRepair(DataFlow.AcceptanceDecision) then None else s.acceptance
    ensures s'.plan == if DataFlow.StaleAfterRepair(DataFlow.PlanField) then None else s.plan
    ensures s'.contract == if DataFlow.StaleAfterRepair(DataFlow.AcceptanceContract) then None else s.contract
    ensures s'.active == if DataFlow.StaleAfterRepair(DataFlow.ActivePacketId) then None else s.active
  {
    hide Leaves, SetStatus;
  }

  // ----- whole runs -----

  predicate Follows(ss: seq<State>, vs: seq<Visit>) {
    |ss| == |vs| + 1 && forall i, j :: 0 <= i < |vs| && j == i + 1 ==> Matches(ss[i], ss[j], vs[i])
  }

  lemma {:induction false} EveryRunIsATrace(c: Setting, ss: seq<State>) returns (vs: seq<Visit>)
    requires Run(c, ss)
    ensures Follows(ss, vs)
  {
    hide Step, Matches;
    if |ss| == 1 {
      vs := [];
    } else {
      var front := ss[..|ss| - 1];
      assert Run(c, front);
      var before := EveryRunIsATrace(c, front);
      var v := EveryStepIsAVisit(c, ss[|ss| - 2], ss[|ss| - 1]);
      vs := before + [v];
      forall i, j | 0 <= i < |vs| && j == i + 1 ensures Matches(ss[i], ss[j], vs[i]) {
        if i < |before| { assert front[i] == ss[i] && front[j] == ss[j]; }
      }
    }
  }

  lemma OnlyOneIntake(v: Visit)
    requires v.Node() == Intake
    ensures v == Plain(Intake)
  {
  }

  lemma FollowingIsTracing(c: Setting, ss: seq<State>, vs: seq<Visit>)
    requires Run(c, ss) && Follows(ss, vs) && vs != []
    ensures Trace(vs)
  {
    hide Step, Visit.Live, Visit.Checkpoints;
    assert Matches(ss[0], ss[1], vs[0]);
    OnlyOneIntake(vs[0]);
    forall i | 0 <= i < |vs| ensures vs[i].Possible() {
      assert Matches(ss[i], ss[i + 1], vs[i]);
    }
    forall i, j | 0 <= i < |vs| && j == i + 1 < |vs| ensures vs[j].Node() == vs[i].Live() {
      assert Matches(ss[i], ss[j], vs[i]) && Matches(ss[j], ss[j + 1], vs[j]);
    }
  }

  /** In every run of the workflow a checkpoint can be resumed exactly until the run has been finalized,
      whatever decisions were recorded. */
  lemma ResumableUntilFinalized(c: Setting, ss: seq<State>, vs: seq<Visit>, i: nat, s: Snapshot)
    requires Run(c, ss) && Follows(ss, vs) && i < |vs| && CheckpointOf(s, vs, i)
    ensures Resume(s).Some? <==> ss[i].node != Finalize
  {
    hide Step, Visit.Live, Visit.Checkpoints, CheckpointOf;
    FollowingIsTracing(c, ss, vs);
    assert Matches(ss[i], ss[i + 1], vs[i]);
    ResumesIff(vs, i, s);
  }

  /** A run interrupted right after publishing, as it is resumed: it publishes a second time exactly
      when the verifier had claimed, before the publication, that what had to be committed and pushed
      already was; otherwise it goes back to acceptance. */
  lemma InterruptedPublicationIsRepeatedIff(c: Setting, ss: seq<State>, vs: seq<Visit>, i: nat, s: Snapshot)
    requires Run(c, ss) && Lifecycle.AllowsNoMore(c.evaluate) && Follows(ss, vs)
    requires i < |vs| && ss[i].node == Publish && CheckpointOf(s, vs, i)
    ensures Resume(s).Some?
    ensures DispatchTo(Resume(s).value)
            == if PipelineReports.ClaimsPublished(ss[i].verification) then Publish else Node.Acceptance
  {
    hide Step, Visit.Live, Visit.Checkpoints, CheckpointOf, Lifecycle.AllowsNoMore, Evaluation.Evaluates,
         Lifecycle.MayPublish, Acceptance.IsContractFor;
    FollowingIsTracing(c, ss, vs);
    assert i > 0;
    assert Matches(ss[i - 1], ss[i], vs[i - 1]) && Matches(ss[i], ss[i + 1], vs[i]);
    InterruptedPublishIsRepeatedIff(vs, i, s);
    PipelineSafety.InvariantInRuns(c, ss, i);
    AcceptedIffClaimed(c, ss[i]);
  }

  lemma AcceptedIffClaimed(c: Setting, s: State)
    requires PipelineSafety.Invariant(c, s) && s.node == Publish
    ensures s.acceptance.Some?
    ensures s.acceptance.value.accepted <==> PipelineReports.ClaimsPublished(s.verification)
  {
    hide Evaluation.Evaluates, Lifecycle.MayPublish, Acceptance.IsContractFor;
    var named :| Evaluation.Evaluates(s.acceptance.value, s.contract.value, s.BeforePublish(), named)
                 && Lifecycle.MayPublish(s.plan.value, s.contract.value, s.BeforePublish(), named);
    PipelineSafety.GateIsReady(c, s, named);
  }
}
