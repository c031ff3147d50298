/** Two families of runs the code allows: repairs without end, and a failed publication that is
    reported as completed. */
module PipelineExamples {
  import opened Prelude
  import opened Topology
  import opened Acceptance
  import opened Evaluation
  import opened Pipeline
  import Checks
  import Evidence
  import Lifecycle
  import LoopPolicy
  import Packets
  import PipelineDependencies
  import PipelineReports
  import Report
  import Scheduler

  lemma Extend(c: Setting, ss: seq<State>, s': State)
    requires Run(c, ss) && Step(c, ss[|ss| - 1], s')
    ensures Run(c, ss + [s'])
  {
    hide Step;
  }

  lemma Onward(c: Setting, ss: seq<State>, s': State) returns (longer: seq<State>)
    requires ss != [] && Run(c, ss) && Step(c, ss[|ss| - 1], s')
    ensures |longer| == |ss| + 1 && Run(c, longer) && longer[|longer| - 1] == s' && ss <= longer
  {
    Extend(c, ss, s');
    longer := ss + [s'];
  }

  // ----- a plan that changes code and commits -----

  const OBLIGATIONS := Acceptance.Obligations.Obligations([], [], [], [], [], [], [], [])

  const PLAN := ExecutionPlan(true, false, [], [], [], [], true, false, false, [])

  const CONTRACT := [Obligation(0, CodeChanged, true, [], [], []), Obligation(1, PublishSatisfied, true, [], [], [])]

  lemma ContractFits(implementIntent: bool)
    ensures IsContractFor(CONTRACT, PLAN, implementIntent, Some(OBLIGATIONS))
  {
    assert Prerequisites(PLAN, Some(OBLIGATIONS)) == [];
    hide Prerequisites;
    assert CONTRACT[0].kind == CodeChanged && CONTRACT[1].kind == PublishSatisfied;
    assert Kinds(CONTRACT) == {CodeChanged, PublishSatisfied};
    hide Kinds;
    assert BlockingSummaries(OBLIGATIONS.impacts) == [];
    assert Detailed(CONTRACT, PLAN, Some(OBLIGATIONS));
  }

  function ThePacket(status: Packets.PacketStatus): Packets.Packet {
    Packets.Packet("p", "t", "g", "s", Packets.Implementation, None, status, [], [], [], [])
  }

  function ThePlan(status: Packets.PacketStatus): Packets.Plan {
    Packets.Plan(None, Packets.Unknown, [ThePacket(status)])
  }

  lemma SelectsThePacket()
    ensures IsPlanned(ThePlan(Packets.Pending))
    ensures Scheduler.Select(ThePlan(Packets.Pending), None).selected == Some("p")
  {
  }

  lemma SettingThePacket(before: Packets.PacketStatus, after: Packets.PacketStatus)
    ensures SetStatus(ThePlan(before), Some("p"), after) == ThePlan(after)
  {
    assert ThePlan(before).packets[0].id == "p";
  }

  /** The state of an example run that reaches the execute stage with this plan. */
  function Begun(p: Packets.Plan): State
    requires p.packets != []
  {
    Start(None).(node := Execute, obligations := Some(OBLIGATIONS), plan := Some(PLAN), contract := Some(CONTRACT),
                 packets := Some(p), active := Some(p.packets[0].id))
  }

  function Told(): State {
    Start(None).(node := Plan, obligations := Some(OBLIGATIONS))
  }

  lemma ReachesPlan(c: Setting) returns (ss: seq<State>)
    ensures ss != [] && Run(c, ss) && ss[|ss| - 1] == Told()
  {
    var start := Start(None);
    assert Run(c, [start]);
    hide *;
    PrefixIsWired(c);
    ObligationsAreWired(c);
    ss := [start];
    ss := Onward(c, ss, start.(node := Classify));
    ss := Onward(c, ss, start.(node := Route));
    ss := Onward(c, ss, start.(node := BuildContext));
    ss := Onward(c, ss, start.(node := Node.Obligations));
    ss := Onward(c, ss, Told().(node := DoneContract));
    ss := Onward(c, ss, Told());
  }

  /** Planned anew, at the execute stage. */
  function Begins(s: State, p: Packets.Plan): State
    requires p.packets != []
  {
    s.(node := Execute, plan := Some(PLAN), contract := Some(CONTRACT), packets := Some(p), active := Some(p.packets[0].id))
  }

  lemma FromPlan(c: Setting, ss: seq<State>, p: Packets.Plan) returns (longer: seq<State>)
    requires ss != [] && Run(c, ss) && IsPlanned(p)
    requires ss[|ss| - 1].node == Plan && ss[|ss| - 1].obligations == Some(OBLIGATIONS)
    ensures p.packets != [] && |longer| == |ss| + 3 && Run(c, longer) && ss <= longer
    ensures longer[|longer| - 1] == Begins(ss[|ss| - 1], p)
  {
    hide *;
    var s := ss[|ss| - 1];
    PlanningIsWired(c, s, p);
    longer := Onward(c, ss, Begins(s, p).(node := Policy));
    longer := Onward(c, longer, Begins(s, p).(node := WorkspacePrepare));
    longer := Onward(c, longer, Begins(s, p));
  }

  lemma ReachesExecute(c: Setting, p: Packets.Plan) returns (ss: seq<State>)
    requires IsPlanned(p)
    ensures ss != [] && Run(c, ss) && ss[|ss| - 1] == Begun(p)
  {
    assert Begun(p) == Begins(Told(), p);
    hide *;
    ss := ReachesPlan(c);
    ss := FromPlan(c, ss, p);
  }

  /** The steps from intake to planning. */
  lemma PrefixIsWired(c: Setting)
    ensures var start := Start(None);
            && Step(c, start, start.(node := Classify))
            && Step(c, start.(node := Classify), start.(node := Route))
            && Step(c, start.(node := Route), start.(node := BuildContext))
            && Step(c, start.(node := BuildContext), start.(node := Node.Obligations))
  {
  }

  lemma ObligationsAreWired(c: Setting)
    ensures Step(c, Start(None).(node := Node.Obligations), Told().(node := DoneContract))
    ensures Step(c, Told().(node := DoneContract), Told())
  {
  }

  /** The steps from planning to execution. */
  lemma PlanningIsWired(c: Setting, s: State, p: Packets.Plan)
    requires s.node == Plan && s.obligations == Some(OBLIGATIONS) && IsPlanned(p)
    ensures p.packets != []
    ensures Step(c, s, Begins(s, p).(node := Policy))
    ensures Step(c, Begins(s, p).(node := Policy), Begins(s, p).(node := WorkspacePrepare))
    ensures Step(c, Begins(s, p).(node := WorkspacePrepare), Begins(s, p))
  {
    ContractFits(c.implementIntent);
    PipelineDependencies.FirstIsSelected(p, s.strategy);
    hide IsContractFor, Scheduler.Select;
  }

  // ----- single steps of execution, repair and review -----

  lemma Executing(c: Setting, s: State, e: Evidence.ExecutionResult, status: Packets.PacketStatus)
    requires s.node == Execute && s.packets.Some?
    requires Leaves(e, KindOf(s.packets.value, Scheduler.Select(s.packets.value, s.strategy).selected), status)
    ensures var id := Scheduler.Select(s.packets.value, s.strategy).selected;
            Step(c, s, s.(node := Review, execution := Some(e), active := id,
                          packets := Some(SetStatus(s.packets.value, id, status))))
  {
    hide Scheduler.Select, SetStatus, IsPlanned, Leaves, KindOf;
    var id := Scheduler.Select(s.packets.value, s.strategy).selected;
    assert Executes(s, s.(node := Review, execution := Some(e), active := id,
                          packets := Some(SetStatus(s.packets.value, id, status))));
  }

  lemma Repairing(c: Setting, s: State, e: Evidence.ExecutionResult, status: Packets.PacketStatus)
    requires s.node == Repair && s.packets.Some? && Leaves(e, Packets.Verification, status)
    ensures Step(c, s, s.(node := Review, execution := Some(e), repairs := s.repairs + 1, verification := None,
                          publish := None, acceptance := None,
                          packets := Some(SetStatus(s.packets.value, s.active, status))))
  {
    hide SetStatus, Leaves;
    assert Repairs(s, s.(node := Review, execution := Some(e), repairs := s.repairs + 1, verification := None,
                         publish := None, acceptance := None,
                         packets := Some(SetStatus(s.packets.value, s.active, status))));
  }

  /** The stage did its own work and nothing that belongs to publication. */
  predicate Disciplined(e: Evidence.ExecutionResult) {
    e.stageFailure.None? && !e.createdPullRequest && !e.pushedGit && !e.committedGit
  }

  lemma DisciplineIsAllowed(c: Setting, s: State)
    requires c.evaluate == Lifecycle.Fallback && s.plan.Some? && s.execution.Some? && Disciplined(s.execution.value)
    ensures ExecutionReview(c, s).allowed && !RetryDecision(c, s).allowed
  {
    hide Checks.EnvironmentBlocked, Checks.PassedFor, HasLevel;
  }

  /** A failing execution goes to repair, under any strategy the checkpoint then chooses. */
  lemma SentToRepair(c: Setting, s: State, strategy: Option<Packets.Strategy>)
    requires c.evaluate == Lifecycle.Fallback && s.node == Review && s.plan.Some? && s.execution.Some?
    requires Disciplined(s.execution.value) && Repairable(s.execution.value)
    ensures Step(c, s, s.(node := Repair, strategy := strategy))
  {
    DisciplineIsAllowed(c, s);
    hide ExecutionReview, RetryDecision, Repairable;
    assert Reviews(c, s, s.(node := Repair, strategy := strategy), false);
  }

  /** Any other one goes where progression says. */
  lemma SentOn(c: Setting, s: State, strategy: Option<Packets.Strategy>)
    requires c.evaluate == Lifecycle.Fallback && s.node == Review && s.plan.Some? && s.execution.Some?
    requires Disciplined(s.execution.value) && !Repairable(s.execution.value) && s.packets.Some?
    ensures var p := Scheduler.Progression(s.packets.value, s.strategy);
            Step(c, s, s.(node := AfterProgression(p.nextStage), strategy := strategy,
                          active := if p.nextStage.ToExecute? then p.nextPacket else None))
  {
    DisciplineIsAllowed(c, s);
    hide ExecutionReview, RetryDecision, Repairable, Scheduler.Progression;
    var p := Scheduler.Progression(s.packets.value, s.strategy);
    assert Reviews(c, s, s.(node := AfterProgression(p.nextStage), strategy := strategy,
                            active := if p.nextStage.ToExecute? then p.nextPacket else None), false);
  }

  function AtExecute(): State { Begun(ThePlan(Packets.Pending)) }

  lemma ReachesThePacket(c: Setting) returns (ss: seq<State>)
    ensures ss != [] && Run(c, ss) && ss[|ss| - 1] == AtExecute()
  {
    SelectsThePacket();
    hide Run, IsPlanned;
    ss := ReachesExecute(c, ThePlan(Packets.Pending));
  }

  lemma ExecutesAs(c: Setting, execution: Evidence.ExecutionResult, status: Packets.PacketStatus)
    requires status == Scheduler.TypedStatus(execution, Packets.Implementation, false)
    ensures Step(c, AtExecute(), AtReview(execution, status, 0))
  {
    SelectsThePacket();
    SettingThePacket(Packets.Pending, status);
    assert KindOf(ThePlan(Packets.Pending), Some("p")) == Packets.Implementation;
    hide Scheduler.Select, SetStatus, Scheduler.TypedStatus, KindOf;
    assert Leaves(execution, Packets.Implementation, status);
    hide Leaves;
    Executing(c, AtExecute(), execution, status);
  }

  function AtReview(execution: Evidence.ExecutionResult, status: Packets.PacketStatus, repairs: nat): State {
    AtExecute().(node := Review, execution := Some(execution), packets := Some(ThePlan(status)), repairs := repairs)
  }

  const NOTHING := Evidence.StructuredEvidence([], [], [], [], false)

  // ----- repairs without end -----

  const UNSUCCESSFUL := Evidence.ExecutionResult(false, Evidence.FailedStatus, false, NOTHING, None, None, false, false, false)

  lemma FailureGoesToRepair(c: Setting, repairs: nat)
    requires c.evaluate == Lifecycle.Fallback
    ensures var s := AtReview(UNSUCCESSFUL, Packets.Failed, repairs);
            Step(c, s, s.(node := Repair))
  {
    hide Step;
    SentToRepair(c, AtReview(UNSUCCESSFUL, Packets.Failed, repairs), None);
  }

  lemma RepairGoesToReview(c: Setting, repairs: nat)
    ensures Step(c, AtReview(UNSUCCESSFUL, Packets.Failed, repairs).(node := Repair),
                 AtReview(UNSUCCESSFUL, Packets.Failed, repairs + 1))
  {
    SettingThePacket(Packets.Failed, Packets.Failed);
    assert Packets.Failed == Scheduler.TypedStatus(UNSUCCESSFUL, Packets.Verification, false);
    assert Leaves(UNSUCCESSFUL, Packets.Verification, Packets.Failed);
    hide Leaves, SetStatus, Step;
    Repairing(c, AtReview(UNSUCCESSFUL, Packets.Failed, repairs).(node := Repair), UNSUCCESSFUL, Packets.Failed);
  }

  /** Review sends every failing execution to repair without asking for the repair budget: for every
      n there is a run with n repairs. */
  lemma {:induction false} RepairsFromReviewAreUnbounded(c: Setting, n: nat) returns (ss: seq<State>)
    requires c.evaluate == Lifecycle.Fallback
    ensures ss != [] && Run(c, ss) && ss[|ss| - 1] == AtReview(UNSUCCESSFUL, Packets.Failed, n)
    ensures |ss| > n && ss[|ss| - 1].repairs == n
  {
    if n == 0 {
      ss := FailsFirst(c);
    } else {
      hide *;
      ss := RepairsFromReviewAreUnbounded(c, n - 1);
      ss := FailsAgain(c, ss, n - 1);
    }
  }

  lemma FailsFirst(c: Setting) returns (ss: seq<State>)
    ensures ss != [] && Run(c, ss) && ss[|ss| - 1] == AtReview(UNSUCCESSFUL, Packets.Failed, 0)
    ensures ss[|ss| - 1].repairs == 0
  {
    ExecutesAs(c, UNSUCCESSFUL, Packets.Failed);
    RepairsOfReview(0);
    hide *;
    ss := ReachesThePacket(c);
    ss := Onward(c, ss, AtReview(UNSUCCESSFUL, Packets.Failed, 0));
  }

  lemma FailsAgain(c: Setting, ss: seq<State>, n: nat) returns (longer: seq<State>)
    requires c.evaluate == Lifecycle.Fallback
    requires ss != [] && Run(c, ss) && ss[|ss| - 1] == AtReview(UNSUCCESSFUL, Packets.Failed, n)
    ensures |longer| == |ss| + 2 && Run(c, longer) && longer[|longer| - 1] == AtReview(UNSUCCESSFUL, Packets.Failed, n + 1)
    ensures longer[|longer| - 1].repairs == n + 1
  {
    FailureGoesToRepair(c, n);
    RepairGoesToReview(c, n);
    RepairsOfReview(n + 1);
    hide *;
    longer := Onward(c, ss, AtReview(UNSUCCESSFUL, Packets.Failed, n).(node := Repair));
    longer := Onward(c, longer, AtReview(UNSUCCESSFUL, Packets.Failed, n + 1));
  }

  lemma RepairsOfReview(n: nat)
    ensures AtReview(UNSUCCESSFUL, Packets.Failed, n).repairs == n
  {
  }

  // ----- a failed publication reported as completed -----

  const CHANGED := Evidence.StructuredEvidence([], [], [], ["f"], true)

  const SUCCESSFUL := Evidence.ExecutionResult(true, Evidence.Succeeded, false, CHANGED, None, None, false, false, false)

  /** The verifier reports that a commit was required and already made. */
  const CLAIMED := VerificationResult(true, NOTHING, [], [], [], ["tests"], [], [], [], [], true, false, true, false)

  const FAILED_CHECK := Evidence.TestCheck(None, Evidence.FailedWord, Some(false))

  /** The publication failed its checks, and the publisher did what it must not do. */
  const FAILED_PUBLISH :=
    PublishResult(false, Evidence.StructuredEvidence([FAILED_CHECK], [], [], [], false), false, false, true)

  const ACCEPTED :=
    Decision(true, Accepted, CompletedStatus,
             [ObligationResult(0, CodeChanged, Passed, false), ObligationResult(1, PublishSatisfied, Passed, false)])

  const QUIET := LoopPolicy.Decision("verify", LoopPolicy.ToContinue, LoopPolicy.NoTrigger, true, false, false)

  function Reviewed(): State { AtReview(SUCCESSFUL, Packets.Completed, 0).(active := None) }

  function Verified(): State { Reviewed().(verification := Some(CLAIMED), history := [QUIET]) }

  function Decided(): State {
    Reviewed().(verification := WithResults(Some(CLAIMED), ACCEPTED.results), acceptance := Some(ACCEPTED),
                history := [QUIET, QUIET.(source := "acceptance")])
  }

  function Published(): State { Decided().(publish := Some(FAILED_PUBLISH)) }

  lemma PassesReview(c: Setting)
    requires c.evaluate == Lifecycle.Fallback
    ensures Step(c, AtReview(SUCCESSFUL, Packets.Completed, 0), Reviewed().(node := QaPlan))
  {
    hide Scheduler.Select, Step;
    assert Scheduler.PlanCompleted(ThePlan(Packets.Completed));
    SentOn(c, AtReview(SUCCESSFUL, Packets.Completed, 0), None);
  }

  lemma PassesQaReview(c: Setting, base: Lifecycle.Facts)
    requires c.detect(PLAN, Some(OBLIGATIONS), Some(CLAIMED), None) == LoopPolicy.NoTrigger
    ensures Step(c, Reviewed().(node := QaReview), Verified().(node := Node.Acceptance))
  {
    var s, s' := Reviewed().(node := QaReview), Verified().(node := Node.Acceptance);
    assert QUIET == LoopPolicy.Evaluate("verify", LoopPolicy.NoTrigger, [], LoopPolicy.DEFAULT_BUDGET, base, c.evaluate);
    assert Asked(c, s.(verification := s'.verification).(publish := None), "verify", QUIET);
    hide Asked, LoopPolicy.Evaluate, ThePlan;
    assert ReviewsQa(c, s, s', QaPass, QUIET);
  }

  function Evidence0(): Results { Acceptance.Results(Some(SUCCESSFUL), Some(CLAIMED), None) }

  lemma ChecksPass()
    ensures Checks.PassedFor(Evidence0(), {}) && !Checks.EnvironmentBlocked(Evidence0())
    ensures PublishDone(Evidence0()) && Evidence.MutationEvidence(SUCCESSFUL)
  {
    var r := Evidence0();
    assert r.Evidences() == [CHANGED, NOTHING];
    assert Checks.VerifierReports(CLAIMED, Evidence.PassedWord);
    assert Checks.Reports(r, {}, Evidence.PassedWord);
    forall w: Evidence.Word | Checks.Reports(r, {}, w) ensures !w.Fails() {
    }
  }

  lemma ContractIsAccepted(named: Obligation -> bool)
    ensures Evaluates(ACCEPTED, CONTRACT, Evidence0(), named)
  {
    ChecksPass();
    hide Checks.PassedFor, Checks.EnvironmentBlocked, PublishDone, Evidence.MutationEvidence;
    assert ACCEPTED.results[0] == Judgement(CONTRACT[0], Evidence0(), named);
    assert ACCEPTED.results[1] == Judgement(CONTRACT[1], Evidence0(), named);
    forall k | 0 <= k < |CONTRACT| ensures ACCEPTED.results[k] == Judgement(CONTRACT[k], Evidence0(), named) {
      assert k == 0 || k == 1;
    }
    assert BlockingPassed(CONTRACT, ACCEPTED.results);
  }

  lemma MovesOnToPublish(c: Setting)
    requires c.evaluate == Lifecycle.Fallback
    ensures var facts := Lifecycle.FactsFor(PLAN, Evidence0(), Some(ACCEPTED), 0, MAX_REPAIRS);
            Lifecycle.AfterAcceptance(facts, c.evaluate).next.NextPublish?
  {
    ChecksPass();
    hide Checks.PassedFor, Checks.EnvironmentBlocked;
    assert Lifecycle.VerificationTerms(PLAN) == {};
    Lifecycle.ExecutionSucceededIsClean(Some(SUCCESSFUL));
    assert Lifecycle.CleanExecution(Some(SUCCESSFUL));
    Lifecycle.PublishPolicyIff(Lifecycle.FactsFor(PLAN, Evidence0(), Some(ACCEPTED), 0, MAX_REPAIRS));
  }

  lemma AcceptsAndPublishes(c: Setting, base: Lifecycle.Facts, named: Obligation -> bool)
    requires c.evaluate == Lifecycle.Fallback
    requires c.detect(PLAN, Some(OBLIGATIONS), Some(CLAIMED), None) == LoopPolicy.NoTrigger
    ensures Step(c, Verified().(node := Node.Acceptance), Decided().(node := Publish))
  {
    hide Evaluates, Lifecycle.AfterAcceptance, Lifecycle.FactsFor, Asked, LoopPolicy.Evaluate;
    var s, s' := Verified().(node := Node.Acceptance), Decided().(node := Publish);
    var d := QUIET.(source := "acceptance");
    ContractIsAccepted(named);
    MovesOnToPublish(c);
    assert s.Results() == Evidence0();
    AcceptanceIsQuiet(c, base);
    assert Accepts(c, s, s', named, d);
  }

  lemma AcceptanceIsQuiet(c: Setting, base: Lifecycle.Facts)
    requires c.detect(PLAN, Some(OBLIGATIONS), Some(CLAIMED), None) == LoopPolicy.NoTrigger
    ensures Asked(c, Verified().(node := Node.Acceptance), "acceptance", QUIET.(source := "acceptance"))
  {
    assert QUIET.(source := "acceptance")
      == LoopPolicy.Evaluate("acceptance", LoopPolicy.NoTrigger, [QUIET], LoopPolicy.DEFAULT_BUDGET, base, c.evaluate);
  }

  lemma ForbiddenActionIsDenied(f: Lifecycle.Facts)
    requires f.publishForbiddenAction
    ensures var t := Lifecycle.AfterPublish(f, Lifecycle.Fallback);
            t.next.NextFinalize? && !t.allowed
  {
  }

  lemma PublishesBadly(c: Setting)
    ensures Step(c, Decided().(node := Publish), Published().(node := PostPublishVerify))
  {
  }

  lemma PublicationIsDenied(c: Setting, named: Obligation -> bool)
    requires c.evaluate == Lifecycle.Fallback
    ensures Step(c, Published().(node := PostPublishVerify), Published().(node := Finalize))
  {
    var s, s' := Published().(node := PostPublishVerify), Published().(node := Finalize);
    var f := Lifecycle.FactsFor(PLAN, Acceptance.Results(s.execution, None, s.publish), None, s.repairs, MAX_REPAIRS);
    ForbiddenActionIsDenied(f);
    hide Lifecycle.AfterPublish, Lifecycle.FactsFor;
    assert ReviewsPublish(c, s, s', named);
  }

  lemma FailedChecksAreSeen(s: State)
    requires s.publish == Some(FAILED_PUBLISH)
    ensures Lifecycle.PublishFailedChecks(s.publish) && s.publish.value.forbiddenAction
  {
    assert FAILED_PUBLISH.evidence.tests[0].status.Fails();
  }

  lemma ReachesQaReview(c: Setting) returns (ss: seq<State>)
    requires c.evaluate == Lifecycle.Fallback
    ensures ss != [] && Run(c, ss) && ss[|ss| - 1] == Reviewed().(node := QaReview)
  {
    ExecutesAs(c, SUCCESSFUL, Packets.Completed);
    PassesReview(c);
    hide *;
    ss := ReachesThePacket(c);
    QaIsStraight(c, Reviewed());
    ss := Onward(c, ss, AtReview(SUCCESSFUL, Packets.Completed, 0));
    ss := Onward(c, ss, Reviewed().(node := QaPlan));
    ss := Onward(c, ss, Reviewed().(node := QaExecute));
    ss := Onward(c, ss, Reviewed().(node := QaReview));
  }

  /** A run whose publication failed its checks and broke the publisher's rules, and whose report
      says completed all the same. */
  lemma FailedPublicationReportedAsCompleted(c: Setting, base: Lifecycle.Facts, named: Obligation -> bool)
    returns (ss: seq<State>)
    requires c.evaluate == Lifecycle.Fallback
    requires c.detect(PLAN, Some(OBLIGATIONS), Some(CLAIMED), None) == LoopPolicy.NoTrigger
    ensures ss != [] && Run(c, ss) && ss[|ss| - 1].node == End && ss[|ss| - 1].publish.Some?
    ensures Lifecycle.PublishFailedChecks(ss[|ss| - 1].publish) && ss[|ss| - 1].publish.value.forbiddenAction
    ensures forall i :: PipelineReports.ReportsOn(i, ss[|ss| - 1]) && Report.Unhindered(i) ==>
                        Report.StatusOf(i) == CompletedStatus
  {
    hide *;
    ss := ReachesQaReview(c);
    PassesQaReview(c, base);
    AcceptsAndPublishes(c, base, named);
    PublishesBadly(c);
    PublicationIsDenied(c, named);
    FinalizeIsStraight(c, Published());
    OutcomeOfPublished();
    ss := Onward(c, ss, Verified().(node := Node.Acceptance));
    ss := Onward(c, ss, Decided().(node := Publish));
    ss := Onward(c, ss, Published().(node := PostPublishVerify));
    ss := Onward(c, ss, Published().(node := Finalize));
    ss := Onward(c, ss, Published().(node := End));
  }

  lemma OutcomeOfPublished()
    ensures var s := Published().(node := End);
            && s.publish.Some? && Lifecycle.PublishFailedChecks(s.publish) && s.publish.value.forbiddenAction
            && forall i :: PipelineReports.ReportsOn(i, s) && Report.Unhindered(i) ==> Report.StatusOf(i) == CompletedStatus
  {
    FailedChecksAreSeen(Published().(node := End));
    ReportIsFavourable(Published().(node := End));
  }

  lemma ReportIsFavourable(s: State)
    requires s.plan == Some(PLAN) && s.acceptance == Some(ACCEPTED)
    ensures forall i :: PipelineReports.ReportsOn(i, s) && Report.Unhindered(i) ==> Report.StatusOf(i) == CompletedStatus
  {
  }

  lemma QaIsStraight(c: Setting, s: State)
    ensures Step(c, s.(node := QaPlan), s.(node := QaExecute)) && Step(c, s.(node := QaExecute), s.(node := QaReview))
  {
  }

  lemma FinalizeIsStraight(c: Setting, s: State)
    ensures Step(c, s.(node := Finalize), s.(node := End))
  {
  }
}
