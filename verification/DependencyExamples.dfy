/** Two runs the code allows in which a packet is worked on before the packet it depends on is done. */
module DependencyExamples {
  import opened Prelude
  import opened Topology
  import opened Acceptance
  import opened Pipeline
  import opened PipelineExamples
  import opened PipelineDependencies
  import DependencySafety
  import Evidence
  import Lifecycle
  import Packets
  import Scheduler

  // ----- two implementation packets, the second depending on the first -----

  function Second(status: Packets.PacketStatus): Packets.Packet {
    ThePacket(status).(id := "q", dependencies := ["p"])
  }

  function Two(a: Packets.PacketStatus, b: Packets.PacketStatus): Packets.Plan {
    Packets.Plan(None, Packets.Unknown, [ThePacket(a), Second(b)])
  }

  const P: Option<string> := Some("p")
  const Q: Option<string> := Some("q")

  /** A stage of the example runs: the statuses of the two packets and what else matters. */
  function At(n: Node, a: Packets.PacketStatus, b: Packets.PacketStatus, active: Option<string>,
              strategy: Option<Packets.Strategy>, e: Option<Evidence.ExecutionResult>, repairs: nat): State {
    Begun(Two(Packets.Pending, Packets.Pending)).(node := n, packets := Some(Two(a, b)), active := active,
                                                  strategy := strategy, execution := e, repairs := repairs)
  }

  lemma TwoIsPlanned()
    ensures IsPlanned(Two(Packets.Pending, Packets.Pending))
    ensures At(Execute, Packets.Pending, Packets.Pending, P, None, None, 0)
            == Begun(Two(Packets.Pending, Packets.Pending))
  {
    assert "p"[0] != "q"[0];
  }

  lemma SettingOne(a: Packets.PacketStatus, b: Packets.PacketStatus, status: Packets.PacketStatus)
    ensures SetStatus(Two(a, b), P, status) == Two(status, b) && KindOf(Two(a, b), P) == Packets.Implementation
    ensures SetStatus(Two(a, b), Q, status) == Two(a, status) && KindOf(Two(a, b), Q) == Packets.Implementation
    ensures SetStatus(Two(a, b), None, status) == Two(a, b)
  {
    assert "p"[0] != "q"[0];
    assert Two(a, b).packets[0].id == "p" && Two(a, b).packets[1].id == "q";
  }

  /** The second packet's dependency is done exactly when the first packet is completed or skipped. */
  lemma SecondIsDoneIff(a: Packets.PacketStatus, b: Packets.PacketStatus)
    ensures DependencySafety.DependenciesDone(Second(b), Two(a, b).packets) <==> a.Done()
    ensures Scheduler.DepsReady(Second(b), Two(a, b).packets) <==> a.Done()
  {
    var ps := Two(a, b).packets;
    assert "p"[0] != "q"[0];
    assert ps[0].id == "p" && "p" in Second(b).dependencies;
    DependencySafety.DepsReadyMeansDone(Second(b), ps);
  }

  // ----- what each stage does -----

  /** Usable and free of failures, but with an open question: its packet counts as failed, and review
      has nothing to repair. */
  const UNSETTLED := UNSUCCESSFUL.(ok := true, status := Evidence.Succeeded,
                              evidence := NOTHING.(blockers := [Evidence.Blocker(Evidence.Generic, false)]))

  /** The same short of its environment: its packet counts as blocked. */
  const STUCK := UNSETTLED.(
      evidence := NOTHING.(blockers := [Evidence.Blocker(Evidence.MissingEnvironmentDependency, false)]))

  /** An agent that produced nothing usable and may be asked again. */
  const FLAKY := UNSUCCESSFUL.(stageFailure := Some(Evidence.StageFailure(Evidence.AgentNoResult, true, true)))

  lemma StatusesLeft(kind: Packets.PacketType)
    ensures Leaves(UNSUCCESSFUL, kind, Packets.Failed) && Leaves(UNSETTLED, kind, Packets.Failed)
    ensures Leaves(STUCK, kind, Packets.Blocked)
    ensures Disciplined(UNSUCCESSFUL) && Disciplined(UNSETTLED) && Disciplined(STUCK)
    ensures Repairable(UNSUCCESSFUL) && !Repairable(UNSETTLED) && !Repairable(STUCK)
  {
    assert UNSETTLED.evidence.blockers[0].kind == Evidence.Generic;
    assert STUCK.evidence.blockers[0].kind == Evidence.MissingEnvironmentDependency;
    assert Packets.Failed == Scheduler.TypedStatus(UNSUCCESSFUL, kind, false);
    assert Packets.Failed == Scheduler.TypedStatus(UNSETTLED, kind, false);
    assert Packets.Blocked == Scheduler.TypedStatus(STUCK, kind, false);
  }

  const DEFAULT: Option<Packets.Strategy> := Some(Packets.Default)
  const REPAIR: Option<Packets.Strategy> := Some(Packets.RepairOnly)

  lemma SelectionOfTwo(a: Packets.PacketStatus, b: Packets.PacketStatus, strategy: Option<Packets.Strategy>)
    ensures var sel, repairing := Scheduler.Select(Two(a, b), strategy), strategy == REPAIR;
            && (repairing && a.Failed? ==> sel == Scheduler.Selection(P, true, []))
            && (repairing && !a.Failed? && b.Failed? ==> sel == Scheduler.Selection(Q, true, []))
            && (!repairing && !a.Pending? && b.Pending? ==> sel.selected == Q && (sel.ready <==> a.Done()))
  {
    SecondIsDoneIff(a, b);
    hide Scheduler.DepsReady;
    var ps := Two(a, b).packets;
    var failed, pending := Scheduler.FirstIndex(ps, Scheduler.IsFailed), Scheduler.FirstIndex(ps, Scheduler.IsPending);
    assert ps[0] == ThePacket(a) && ps[1] == Second(b);
    assert Scheduler.FirstIndex(ps, Scheduler.IsPendingRepair) == |ps|;
    assert failed < |ps| ==> failed == if a.Failed? then 0 else 1;
    assert a.Failed? || b.Failed? ==> failed < |ps|;
    assert b.Pending? ==> pending == if a.Pending? then 0 else 1;
  }

  /** Under repair_only a failed packet is executed again. */
  lemma ProgressionOfTwo(a: Packets.PacketStatus, b: Packets.PacketStatus)
    requires a.Failed? || (a.Blocked? && b.Failed?)
    ensures var next := Scheduler.Progression(Two(a, b), REPAIR);
            next.nextStage.ToExecute? && next.nextPacket == if a.Failed? then P else Q
  {
    SelectionOfTwo(a, b, REPAIR);
    hide Scheduler.Select, Scheduler.RepairPacketSelected;
    assert Two(a, b).packets[0] == ThePacket(a);
    assert !Scheduler.PlanCompleted(Two(a, b));
  }

  // ----- leaving repair_only too early -----

  lemma GoesToRepair(c: Setting, active: Option<string>, b: Packets.PacketStatus, before: Option<Packets.Strategy>, n: nat)
    requires c.evaluate == Lifecycle.Fallback
    ensures Step(c, At(Review, Packets.Failed, b, active, before, Some(UNSUCCESSFUL), n),
                 At(Node.Repair, Packets.Failed, b, active, REPAIR, Some(UNSUCCESSFUL), n))
  {
    StatusesLeft(Packets.Verification);
    hide Step, Leaves, Repairable, Disciplined, Two;
    SentToRepair(c, At(Review, Packets.Failed, b, active, before, Some(UNSUCCESSFUL), n), REPAIR);
  }

  lemma RepairedInVain(c: Setting, active: Option<string>, b: Packets.PacketStatus, n: nat)
    requires active == P || (active == Q && b.Failed?)
    ensures Step(c, At(Node.Repair, Packets.Failed, b, active, REPAIR, Some(UNSUCCESSFUL), n),
                 At(Review, Packets.Failed, b, active, REPAIR, Some(UNSETTLED), n + 1))
  {
    StatusesLeft(Packets.Verification);
    SettingOne(Packets.Failed, b, Packets.Failed);
    hide Step, Leaves, SetStatus, Repairable, Disciplined, KindOf, Two;
    Repairing(c, At(Node.Repair, Packets.Failed, b, active, REPAIR, Some(UNSUCCESSFUL), n), UNSETTLED, Packets.Failed);
  }

  /** Progression offers a failed packet again under repair_only, whatever strategy the checkpoint then
      chooses. */
  lemma OfferedAgain(c: Setting, a: Packets.PacketStatus, b: Packets.PacketStatus, active: Option<string>,
                     e: Evidence.ExecutionResult, after: Option<Packets.Strategy>, n: nat)
    requires c.evaluate == Lifecycle.Fallback && (e == UNSETTLED || e == STUCK)
    requires a.Failed? || (a.Blocked? && b.Failed?)
    ensures Step(c, At(Review, a, b, active, REPAIR, Some(e), n),
                 At(Execute, a, b, if a.Failed? then P else Q, after, Some(e), n))
  {
    StatusesLeft(Packets.Verification);
    ProgressionOfTwo(a, b);
    hide Step, Leaves, Repairable, Disciplined, Scheduler.Progression;
    SentOn(c, At(Review, a, b, active, REPAIR, Some(e), n), after);
  }

  /** The selected packet is executed, whichever it is. */
  lemma Worked(c: Setting, s: State, a: Packets.PacketStatus, b: Packets.PacketStatus, id: Option<string>,
               e: Evidence.ExecutionResult, status: Packets.PacketStatus)
    requires s.node == Execute && s.packets == Some(Two(a, b)) && (id == P || id == Q)
    requires Scheduler.Select(Two(a, b), s.strategy).selected == id && Leaves(e, Packets.Implementation, status)
    ensures Step(c, s, s.(node := Review, execution := Some(e), active := id,
                          packets := Some(if id == P then Two(status, b) else Two(a, status))))
  {
    SettingOne(a, b, status);
    assert "p"[0] != "q"[0];
    hide Step, Leaves, SetStatus, KindOf, Scheduler.Select;
    Executing(c, s, e, status);
  }

  lemma FailsAndIsOffered(c: Setting, ss: seq<State>, active: Option<string>, b: Packets.PacketStatus,
                          before: Option<Packets.Strategy>, after: Option<Packets.Strategy>, n: nat)
    returns (longer: seq<State>)
    requires c.evaluate == Lifecycle.Fallback && ss != [] && Run(c, ss)
    requires ss[|ss| - 1] == At(Review, Packets.Failed, b, active, before, Some(UNSUCCESSFUL), n)
    requires active == P || (active == Q && b.Failed?)
    ensures |longer| == |ss| + 3 && Run(c, longer) && ss <= longer
    ensures longer[|longer| - 1] == At(Execute, Packets.Failed, b, P, after, Some(UNSETTLED), n + 1)
  {
    hide *;
    GoesToRepair(c, active, b, before, n);
    RepairedInVain(c, active, b, n);
    OfferedAgain(c, Packets.Failed, b, active, UNSETTLED, after, n + 1);
    longer := Onward(c, ss, At(Node.Repair, Packets.Failed, b, active, REPAIR, Some(UNSUCCESSFUL), n));
    longer := Onward(c, longer, At(Review, Packets.Failed, b, active, REPAIR, Some(UNSETTLED), n + 1));
    longer := Onward(c, longer, At(Execute, Packets.Failed, b, P, after, Some(UNSETTLED), n + 1));
  }

  /** Working on the second packet while the first one is not done; the selector may call it ready. */
  ghost predicate TooEarly(s: State, a: Packets.PacketStatus, ready: bool) {
    s.node == Execute && !Safe(s) && (Ready(s) <==> ready) && AnyPacket(s, a)
  }

  lemma RunsTooEarly(s: State, a: Packets.PacketStatus, b: Packets.PacketStatus)
    requires s.node == Execute && s.packets == Some(Two(a, b)) && !a.Done()
    requires Scheduler.Select(Two(a, b), s.strategy).selected == Q
    ensures TooEarly(s, a, Scheduler.Select(Two(a, b), s.strategy).ready)
  {
    hide Scheduler.Select;
    SecondIsDoneIff(a, b);
    assert Two(a, b).packets[1].id == "q" && Two(a, b).packets[0].status == a;
  }

  lemma FirstFails(c: Setting) returns (ss: seq<State>)
    ensures ss != [] && Run(c, ss)
    ensures ss[|ss| - 1] == At(Review, Packets.Failed, Packets.Pending, P, None, Some(UNSUCCESSFUL), 0)
  {
    StatusesLeft(Packets.Implementation);
    FirstWorked(c, UNSUCCESSFUL, Packets.Failed);
    TwoIsPlanned();
    hide *;
    ss := ReachesExecute(c, Two(Packets.Pending, Packets.Pending));
    ss := Onward(c, ss, At(Review, Packets.Failed, Packets.Pending, P, None, Some(UNSUCCESSFUL), 0));
  }

  lemma FirstWorked(c: Setting, e: Evidence.ExecutionResult, status: Packets.PacketStatus)
    requires Leaves(e, Packets.Implementation, status)
    ensures Step(c, At(Execute, Packets.Pending, Packets.Pending, P, None, None, 0),
                 At(Review, status, Packets.Pending, P, None, Some(e), 0))
  {
    TwoIsPlanned();
    FirstIsSelected(Two(Packets.Pending, Packets.Pending), None);
    hide Step, Leaves, Scheduler.Select, IsPlanned;
    Worked(c, At(Execute, Packets.Pending, Packets.Pending, P, None, None, 0), Packets.Pending, Packets.Pending, P, e,
           status);
  }

  lemma SecondTooEarly(c: Setting)
    ensures var s := At(Execute, Packets.Failed, Packets.Pending, P, DEFAULT, Some(UNSETTLED), 1);
            && TooEarly(s, Packets.Failed, false)
            && Step(c, s, At(Review, Packets.Failed, Packets.Failed, Q, DEFAULT, Some(UNSUCCESSFUL), 1))
  {
    var s := At(Execute, Packets.Failed, Packets.Pending, P, DEFAULT, Some(UNSETTLED), 1);
    SelectionOfTwo(Packets.Failed, Packets.Pending, DEFAULT);
    StatusesLeft(Packets.Implementation);
    hide Step, Leaves, Scheduler.Select, TooEarly;
    RunsTooEarly(s, Packets.Failed, Packets.Pending);
    assert "p"[0] != "q"[0];
    Worked(c, s, Packets.Failed, Packets.Pending, Q, UNSUCCESSFUL, Packets.Failed);
  }

  lemma FirstStuck(c: Setting)
    ensures Step(c, At(Execute, Packets.Failed, Packets.Failed, P, REPAIR, Some(UNSETTLED), 2),
                 At(Review, Packets.Blocked, Packets.Failed, P, REPAIR, Some(STUCK), 2))
  {
    SelectionOfTwo(Packets.Failed, Packets.Failed, REPAIR);
    StatusesLeft(Packets.Implementation);
    hide Step, Leaves, Scheduler.Select;
    Worked(c, At(Execute, Packets.Failed, Packets.Failed, P, REPAIR, Some(UNSETTLED), 2), Packets.Failed, Packets.Failed, P,
           STUCK, Packets.Blocked);
  }

  lemma SecondCalledReady()
    ensures TooEarly(At(Execute, Packets.Blocked, Packets.Failed, Q, REPAIR, Some(STUCK), 2), Packets.Blocked, true)
  {
    SelectionOfTwo(Packets.Blocked, Packets.Failed, REPAIR);
    hide Scheduler.Select, TooEarly;
    RunsTooEarly(At(Execute, Packets.Blocked, Packets.Failed, Q, REPAIR, Some(STUCK), 2), Packets.Blocked, Packets.Failed);
  }

  /** The first packet failed and was repaired in vain; the checkpoint of the review that offers it again
      leaves repair_only, and the stage works on the second packet, which is not ready. The first packet
      is offered again and ends blocked; now the second one is worked on once more, and this time the
      selector even calls it ready. */
  lemma LeavingRepairOnlyRunsTooEarly(c: Setting) returns (ss: seq<State>, i: nat)
    requires c.evaluate == Lifecycle.Fallback
    ensures Run(c, ss) && i < |ss| - 1
    ensures TooEarly(ss[i], Packets.Failed, false) && TooEarly(ss[|ss| - 1], Packets.Blocked, true)
  {
    hide *;
    ss := FirstFails(c);
    ss := FailsAndIsOffered(c, ss, P, Packets.Pending, None, DEFAULT, 0);
    i := |ss| - 1;
    var early := ss;
    SecondTooEarly(c);
    ss := Onward(c, ss, At(Review, Packets.Failed, Packets.Failed, Q, DEFAULT, Some(UNSUCCESSFUL), 1));
    ss := FailsAndIsOffered(c, ss, Q, Packets.Failed, DEFAULT, REPAIR, 1);
    FirstStuck(c);
    OfferedAgain(c, Packets.Blocked, Packets.Failed, P, STUCK, REPAIR, 2);
    SecondCalledReady();
    ss := Onward(c, ss, At(Review, Packets.Blocked, Packets.Failed, P, REPAIR, Some(STUCK), 2));
    ss := Onward(c, ss, At(Execute, Packets.Blocked, Packets.Failed, Q, REPAIR, Some(STUCK), 2));
    assert ss[i] == early[i];
  }

  // ----- retrying with nothing active -----

  const BROKEN := VerificationResult(false, NOTHING, [], [], [], [], [], [], [], [], false, false, false, false)

  /** The example run after QA review found a code failure. */
  function Rejected(n: Node, e: Evidence.ExecutionResult, repairs: nat): State {
    At(n, Packets.Blocked, Packets.Pending, None, None, Some(e), repairs).(history := [CONTINUE])
  }

  lemma BlockedAsksForProof()
    ensures Scheduler.Progression(Two(Packets.Blocked, Packets.Pending), None).nextStage == Scheduler.ToVerify
  {
    var ps := Two(Packets.Blocked, Packets.Pending).packets;
    SelectionOfTwo(Packets.Blocked, Packets.Pending, None);
    hide Scheduler.Select;
    assert ps[0] == ThePacket(Packets.Blocked);
    assert Scheduler.IsBlockedImplementation(ps[0]) && Scheduler.IsBlocked(ps[0]);
    assert Scheduler.FirstIndex(ps, Scheduler.IsFailed) == 2;
  }

  lemma BlockedGoesToQa(c: Setting)
    requires c.evaluate == Lifecycle.Fallback
    ensures Step(c, At(Review, Packets.Blocked, Packets.Pending, P, None, Some(STUCK), 0),
                 At(QaPlan, Packets.Blocked, Packets.Pending, None, None, Some(STUCK), 0))
  {
    StatusesLeft(Packets.Verification);
    BlockedAsksForProof();
    hide Step, Leaves, Repairable, Disciplined, Scheduler.Progression, Two;
    SentOn(c, At(Review, Packets.Blocked, Packets.Pending, P, None, Some(STUCK), 0), None);
  }

  lemma QaRejects(c: Setting)
    ensures Step(c, At(QaReview, Packets.Blocked, Packets.Pending, None, None, Some(STUCK), 0),
                 Rejected(Node.Repair, STUCK, 0).(verification := Some(BROKEN)))
  {
    assert ReviewsQa(c, At(QaReview, Packets.Blocked, Packets.Pending, None, None, Some(STUCK), 0),
                     Rejected(Node.Repair, STUCK, 0).(verification := Some(BROKEN)), QaFailCode, CONTINUE);
  }

  lemma RepairFlakes(c: Setting)
    ensures Step(c, Rejected(Node.Repair, STUCK, 0).(verification := Some(BROKEN)), Rejected(Review, FLAKY, 1))
  {
    SettingOne(Packets.Blocked, Packets.Pending, Packets.Failed);
    assert Packets.Failed == Scheduler.TypedStatus(FLAKY, Packets.Verification, false);
    assert Leaves(FLAKY, Packets.Verification, Packets.Failed);
    hide Step, Leaves, SetStatus, KindOf, Two, Scheduler.TypedStatus;
    Repairing(c, Rejected(Node.Repair, STUCK, 0).(verification := Some(BROKEN)), FLAKY, Packets.Failed);
  }

  lemma Retried(c: Setting)
    requires c.RetryBudget() > 0
    ensures Step(c, Rejected(Review, FLAKY, 1), Rejected(Execute, FLAKY, 1).(retries := 1))
  {
    hide ExecutionReview, SetStatus, Scheduler.Progression, Repairable, KindOf, Two;
    SettingOne(Packets.Blocked, Packets.Pending, Packets.Pending);
    MayRetry(c, Rejected(Review, FLAKY, 1));
    hide RetryDecision;
    assert Reviews(c, Rejected(Review, FLAKY, 1), Rejected(Execute, FLAKY, 1).(retries := 1), false);
  }

  lemma MayRetry(c: Setting, s: State)
    requires c.RetryBudget() > 0 && s.execution == Some(FLAKY) && s.retries == 0
    ensures RetryDecision(c, s).allowed && RetryDecision(c, s).next == 1
  {
  }

  lemma SecondIsSelected()
    ensures TooEarly(Rejected(Execute, FLAKY, 1).(retries := 1), Packets.Blocked, false)
  {
    SelectionOfTwo(Packets.Blocked, Packets.Pending, None);
    hide Scheduler.Select, TooEarly;
    RunsTooEarly(Rejected(Execute, FLAKY, 1).(retries := 1), Packets.Blocked, Packets.Pending);
  }

  /** The first packet is blocked, QA finds a code failure, and the repair it asks for dies with a
      retryable agent failure. By then no packet is active, so the retry puts none back, and the stage
      works on the second packet although the first one is blocked. */
  lemma RetryingRunsTooEarly(c: Setting) returns (ss: seq<State>)
    requires c.evaluate == Lifecycle.Fallback && c.RetryBudget() > 0
    ensures ss != [] && Run(c, ss) && TooEarly(ss[|ss| - 1], Packets.Blocked, false)
  {
    hide *;
    ss := ReachesQaBlocked(c);
    QaRejects(c);
    RepairFlakes(c);
    Retried(c);
    SecondIsSelected();
    ss := Onward(c, ss, Rejected(Node.Repair, STUCK, 0).(verification := Some(BROKEN)));
    ss := Onward(c, ss, Rejected(Review, FLAKY, 1));
    ss := Onward(c, ss, Rejected(Execute, FLAKY, 1).(retries := 1));
  }

  lemma ReachesQaBlocked(c: Setting) returns (ss: seq<State>)
    requires c.evaluate == Lifecycle.Fallback
    ensures ss != [] && Run(c, ss)
    ensures ss[|ss| - 1] == At(QaReview, Packets.Blocked, Packets.Pending, None, None, Some(STUCK), 0)
  {
    StatusesLeft(Packets.Implementation);
    FirstWorked(c, STUCK, Packets.Blocked);
    BlockedGoesToQa(c);
    TwoIsPlanned();
    var s := At(QaReview, Packets.Blocked, Packets.Pending, None, None, Some(STUCK), 0);
    QaIsStraight(c, s);
    hide *;
    ss := ReachesExecute(c, Two(Packets.Pending, Packets.Pending));
    ss := Onward(c, ss, At(Review, Packets.Blocked, Packets.Pending, P, None, Some(STUCK), 0));
    ss := Onward(c, ss, s.(node := QaPlan));
    ss := Onward(c, ss, s.(node := QaExecute));
    ss := Onward(c, ss, s.(node := QaReview));
  }
}
