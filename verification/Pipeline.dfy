/** The workflow as a state machine: every stage node together with its router (stages/), over the
    wired graph. What agents, models and people answer is left open. */
module Pipeline {
  import opened Prelude
  import opened Topology
  import opened Evidence
  import opened Acceptance
  import opened Evaluation
  import AgentRetry
  import Lifecycle
  import LoopPolicy
  import Packets
  import Report
  import ScheduleRuns
  import Scheduler

  /** What stays the same during a run. `detect` stands for the text scan behind the loop policy's
      trigger; it sees the plan, the obligations, the verification and the publication. */
  datatype Setting = Setting(
    implementIntent: bool,
    storedRetryBudget: int,
    evaluate: Lifecycle.Evaluator,
    detect: (ExecutionPlan, Option<Obligations>, Option<VerificationResult>, Option<PublishResult>) -> LoopPolicy.Trigger)
  {
    function RetryBudget(): int { AgentRetry.BudgetOf(storedRetryBudget) }
  }

  /** The part of `WorkflowState` that decides where a run goes and what it reports. */
  datatype State = State(
    node: Node,
    strategy: Option<Packets.Strategy>,
    researched: bool,
    obligations: Option<Obligations>,
    plan: Option<ExecutionPlan>,
    contract: Option<seq<Obligation>>,
    packets: Option<Packets.Plan>,
    active: Option<string>,
    execution: Option<ExecutionResult>,
    verification: Option<VerificationResult>,
    publish: Option<PublishResult>,
    acceptance: Option<Decision>,
    history: seq<LoopPolicy.Decision>,
    retries: nat,
    repairs: nat)
  {
    function Results(): Results { Acceptance.Results(execution, verification, publish) }

    /** The evidence acceptance is evaluated on: before publication, and before its own obligation
        results are copied into the verification. */
    function BeforePublish(): Results { Acceptance.Results(execution, WithResults(verification, []), None) }
  }

  function WithResults(v: Option<VerificationResult>, results: seq<ObligationResult>): Option<VerificationResult> {
    if v.Some? then Some(v.value.(obligationResults := results)) else None
  }

  function Start(strategy: Option<Packets.Strategy>): State {
    State(Intake, strategy, false, None, None, None, None, None, None, None, None, None, [], 0, 0)
  }

  const MAX_REPAIRS := 2

  // ----- the stages up to execution -----

  /** What `build_plan` guarantees of its plans. */
  ghost predicate IsPlanned(p: Packets.Plan) {
    && ScheduleRuns.Fresh(p) && ScheduleRuns.Chain(p.packets) && ScheduleRuns.RepairsFirst(p.packets)
    && |p.packets| <= 5
  }

  /** Stages that change nothing modelled here and go on along any of their edges; observation goes
      back to research only while there is no research result. */
  ghost predicate Passes(s: State, s': State) {
    && s.node in {Intake, Classify, Route, Observe, BuildContext, DoneContract, Policy, Approval, WorkspacePrepare,
                  QaPlan, QaExecute, Finalize}
    && Wired(s.node, s'.node) && s' == s.(node := s'.node)
    && (s.node == Observe && s'.node == Research ==> !s.researched)
  }

  ghost predicate DoesResearch(s: State, s': State) {
    s.node == Research && Wired(s.node, s'.node) && s' == s.(node := s'.node, researched := true)
  }

  ghost predicate DerivesObligations(s: State, s': State) {
    s.node == Node.Obligations && s'.obligations.Some? && s' == s.(node := DoneContract, obligations := s'.obligations)
  }

  ghost predicate Plans(c: Setting, s: State, s': State) {
    && s.node == Plan && s'.plan.Some? && s'.contract.Some? && s'.packets.Some?
    && IsContractFor(s'.contract.value, s'.plan.value, c.implementIntent, s.obligations)
    && IsPlanned(s'.packets.value)
    && s' == s.(node := Policy, strategy := s'.strategy, plan := s'.plan, contract := s'.contract,
                packets := s'.packets, active := Scheduler.Select(s'.packets.value, s'.strategy).selected)
  }

  // ----- execute, review, repair -----

  predicate HasPacket(ps: seq<Packets.Packet>, id: Option<string>) {
    id.Some? && exists k :: 0 <= k < |ps| && ps[k].id == id.value
  }

  function SetStatus(p: Packets.Plan, id: Option<string>, status: Packets.PacketStatus): Packets.Plan {
    if HasPacket(p.packets, id) then ScheduleRuns.Executed(p, id.value, status) else p
  }

  /** The status an execution or a repair leaves a packet of this kind with; whether the plan is
      sensitive to the runtime is left open. */
  ghost predicate Leaves(e: ExecutionResult, kind: Packets.PacketType, status: Packets.PacketStatus) {
    exists sensitive :: status == Scheduler.TypedStatus(e, kind, sensitive)
  }

  /** Kind of the first packet with this id. */
  function KindOf(p: Packets.Plan, id: Option<string>): Packets.PacketType {
    var k := Scheduler.FirstIndex(p.packets, (q: Packets.Packet) => id == Some(q.id));
    if k < |p.packets| then p.packets[k].kind else Packets.Verification
  }

  lemma LeavesSettled(e: ExecutionResult, kind: Packets.PacketType, status: Packets.PacketStatus)
    requires Leaves(e, kind, status)
    ensures Scheduler.Settled(status)
  {
    var sensitive :| status == Scheduler.TypedStatus(e, kind, sensitive);
    ScheduleRuns.ExecutionsSettle(e, kind, sensitive);
  }

  /** The execute stage selects again and works on whatever packet comes out, ready or not. */
  ghost predicate Executes(s: State, s': State) {
    && s.node == Execute && s'.execution.Some? && s'.packets.Some?
    && exists p: Packets.Plan, status ::
         && (if s.packets.Some? then p == s.packets.value else IsPlanned(p))
         && var id := Scheduler.Select(p, s.strategy).selected;
            Leaves(s'.execution.value, KindOf(p, id), status) &&
            s' == s.(node := Review, execution := s'.execution, active := id, packets := Some(SetStatus(p, id, status)))
  }

  predicate UnderRepairOnly(s: State) {
    s.packets.Some? && Scheduler.Effective(s.strategy, s.packets.value).RepairOnly?
  }

  predicate AnyPacket(s: State, status: Packets.PacketStatus) {
    s.packets.Some? && exists k :: 0 <= k < |s.packets.value.packets| && s.packets.value.packets[k].status == status
  }

  /** `_execution_repair_failure_summaries` is not empty for one of its structural reasons; command
      output and blocker texts can add more. */
  predicate Repairable(e: ExecutionResult) {
    || e.stageFailure.Some? || !e.ok || e.status.FailedStatus? || e.status.BlockedStatus?
    || exists k :: 0 <= k < |e.evidence.tests|
                   && (e.evidence.tests[k].passed == Some(false) || e.evidence.tests[k].status.FailedWord?
                       || e.evidence.tests[k].status.ErrorWord?)
  }

  ghost function ExecutionReview(c: Setting, s: State): Lifecycle.Transition
    requires s.plan.Some?
  {
    Lifecycle.AfterExecution(
      Lifecycle.FactsFor(s.plan.value, Acceptance.Results(s.execution, None, None), None, 0, MAX_REPAIRS), c.evaluate)
  }

  function RetryDecision(c: Setting, s: State): AgentRetry.RetryDecision
    requires s.execution.Some?
  {
    AgentRetry.Decide(s.execution.value.stageFailure, s.retries, c.RetryBudget())
  }

  /** Where review goes with a passing execution: as progression says, except that "verify" is not
      one of its edges and falls back to QA. */
  function AfterProgression(next: Scheduler.NextStage): Node {
    match next
    case ToExecute => Execute
    case ToFinalize => Finalize
    case ToQaPlan | ToVerify => QaPlan
  }

  ghost predicate Reviews(c: Setting, s: State, s': State, marked: bool)
    requires s.node == Review && s.plan.Some? && s.execution.Some?
  {
    var retry := RetryDecision(c, s);
    var t := ExecutionReview(c, s);
    if retry.allowed then
      s' == s.(node := Execute, strategy := s'.strategy, retries := retry.next,
               packets := if s.packets.Some? then Some(SetStatus(s.packets.value, s.active, Packets.Pending)) else None)
    else if !t.allowed then
      s' == s.(node := Finalize, strategy := s'.strategy,
               acceptance := if s.contract.Some? then Some(Report.AcceptanceFromViolation(t.violations)) else s.acceptance)
    else if Repairable(s.execution.value) || marked then
      s' == s.(node := Repair, strategy := s'.strategy)
    else if s.packets.None? then
      s' == s.(node := QaPlan, strategy := s'.strategy)
    else
      var p := Scheduler.Progression(s.packets.value, s.strategy);
      s' == s.(node := AfterProgression(p.nextStage), strategy := s'.strategy,
               active := if p.nextStage.ToExecute? then p.nextPacket else None)
  }

  /** A repair is not told the packet: its status comes from the result alone. */
  ghost predicate Repairs(s: State, s': State) {
    && s.node == Repair && s'.execution.Some?
    && exists status ::
         && Leaves(s'.execution.value, Packets.Verification, status)
         && s' == s.(node := Review, strategy := s'.strategy, execution := s'.execution, repairs := s.repairs + 1,
                     verification := None, publish := None, acceptance := None,
                     packets := if s.packets.Some? then Some(SetStatus(s.packets.value, s.active, status)) else None)
  }

  // ----- QA review, acceptance, publication -----

  /** `_clear_for_reentry` on the fields modelled here. */
  function ClearedFor(s: State, target: Node): State {
    var early := target in {Research, Observe, BuildContext, Node.Obligations};
    var replans := early || target == Plan;
    s.(publish := None,
       obligations := if early then None else s.obligations,
       plan := if replans then None else s.plan,
       contract := if replans then None else s.contract,
       packets := if replans then None else s.packets,
       active := if replans then None else s.active)
  }

  /** A decision of the loop policy is recorded; if it names a target the run goes there. */
  ghost predicate Asked(c: Setting, s: State, source: string, d: LoopPolicy.Decision)
    requires s.plan.Some?
  {
    exists base ::
      d == LoopPolicy.Evaluate(source, c.detect(s.plan.value, s.obligations, s.verification, s.publish),
                               s.history, LoopPolicy.DEFAULT_BUDGET, base, c.evaluate)
  }

  function Reenters(s: State, d: LoopPolicy.Decision): State
    requires NodeOf(d.target).Some?
  {
    var target := NodeOf(d.target).value;
    ClearedFor(s, target).(node := target, history := s.history + [d])
  }

  datatype QaVerdict = QaPass | QaFailCode | QaFailEnv | QaFailRequirements

  /** Recorded when a code failure takes precedence over re-entry. */
  const CONTINUE := LoopPolicy.Decision("qa_review", LoopPolicy.ToContinue, LoopPolicy.NoTrigger, true, false, false)

  ghost predicate ReviewsQa(c: Setting, s: State, s': State, qa: QaVerdict, d: LoopPolicy.Decision)
    requires s.node == QaReview && s.plan.Some?
  {
    var seen := s.(verification := s'.verification);
    && s'.verification.Some? && (qa.QaPass? <==> s'.verification.value.passed)
    && s'.verification.value.obligationResults == []
    && if qa.QaFailCode? then
         d == CONTINUE && s' == seen.(node := Repair, strategy := s'.strategy, history := s.history + [d])
       else
         && Asked(c, seen.(publish := None), "verify", d)
         && if NodeOf(d.target).Some? then s' == Reenters(seen, d).(strategy := s'.strategy)
            else s' == seen.(node := if qa.QaPass? || qa.QaFailEnv? then Node.Acceptance else Finalize,
                             strategy := s'.strategy, history := s.history + [d])
  }

  ghost predicate Accepts(c: Setting, s: State, s': State, named: Obligation -> bool, d: LoopPolicy.Decision)
    requires s.node == Node.Acceptance && s.plan.Some? && s.contract.Some?
  {
    && s'.acceptance.Some? && Evaluates(s'.acceptance.value, s.contract.value, s.Results(), named)
    && Asked(c, s, "acceptance", d)
    && var decided := s.(acceptance := s'.acceptance,
                         verification := WithResults(s.verification, s'.acceptance.value.results));
       var facts := Lifecycle.FactsFor(s.plan.value, s.Results(), s'.acceptance, 0, MAX_REPAIRS);
       if NodeOf(d.target).Some? then s' == Reenters(decided, d).(strategy := s'.strategy)
       else
         && s' == decided.(node := if Lifecycle.AfterAcceptance(facts, c.evaluate).next.NextPublish? then Publish else Finalize,
                           strategy := s'.strategy, history := s.history + [d])
         && (s'.acceptance.value.accepted ==> s'.strategy == s.strategy)
  }

  /** The publish stage refuses to run without an acceptance it may act on. */
  predicate PublishAllowed(s: State) {
    s.acceptance.Some? && (s.acceptance.value.accepted || Lifecycle.OnlyPublishMissing(s.acceptance.value))
  }

  ghost predicate Publishes(s: State, s': State) {
    && s.node == Publish && PublishAllowed(s) && s'.publish.Some?
    && s' == s.(node := PostPublishVerify, publish := s'.publish)
  }

  ghost function PublishReview(c: Setting, s: State): Lifecycle.Transition
    requires s.plan.Some?
  {
    Lifecycle.AfterPublish(
      Lifecycle.FactsFor(s.plan.value, Acceptance.Results(s.execution, None, s.publish), None, s.repairs, MAX_REPAIRS),
      c.evaluate)
  }

  ghost predicate ReviewsPublish(c: Setting, s: State, s': State, named: Obligation -> bool)
    requires s.node == PostPublishVerify && s.plan.Some?
  {
    var t := PublishReview(c, s);
    var next := if t.next.NextRepair? then Repair else Finalize;
    if t.next.NextFinalize? && t.allowed && s.contract.Some? then
      && s'.acceptance.Some? && Evaluates(s'.acceptance.value, s.contract.value, s.Results(), named)
      && s' == s.(node := next, acceptance := s'.acceptance)
    else s' == s.(node := next)
  }

  // ----- runs -----

  ghost predicate Step(c: Setting, s: State, s': State) {
    match s.node
    case Research => DoesResearch(s, s')
    case Obligations => DerivesObligations(s, s')
    case Plan => Plans(c, s, s')
    case Execute => Executes(s, s')
    case Review => s.plan.Some? && s.execution.Some? && exists marked :: Reviews(c, s, s', marked)
    case Repair => Repairs(s, s')
    case QaReview => s.plan.Some? && exists qa, d :: ReviewsQa(c, s, s', qa, d)
    case Acceptance => s.plan.Some? && s.contract.Some? && exists named, d :: Accepts(c, s, s', named, d)
    case Publish => Publishes(s, s')
    case PostPublishVerify => s.plan.Some? && exists named :: ReviewsPublish(c, s, s', named)
    case _ => Passes(s, s')
  }

  ghost predicate Run(c: Setting, ss: seq<State>) {
    && ss != [] && ss[0] == Start(ss[0].strategy)
    && forall i, j :: 0 <= i < |ss| && j == i + 1 < |ss| ==> Step(c, ss[i], ss[j])
  }

  lemma ReentriesAreWired(c: Setting, s: State, source: string, d: LoopPolicy.Decision)
    requires s.plan.Some? && Asked(c, s, source, d)
    ensures NodeOf(d.target).Some? ==>
              Wired(QaReview, NodeOf(d.target).value) && Wired(Node.Acceptance, NodeOf(d.target).value)
  {
    hide LoopPolicy.Exhausted;
  }

  lemma DecisionStepsAreWired(c: Setting, s: State, s': State)
    requires Step(c, s, s') && (s.node == QaReview || s.node == Node.Acceptance)
    ensures Wired(s.node, s'.node)
  {
    hide Asked, Evaluates, Lifecycle.FactsFor, Lifecycle.AfterAcceptance, ClearedFor;
    if s.node == QaReview {
      var qa, d :| ReviewsQa(c, s, s', qa, d);
      if !qa.QaFailCode? {
        ReentriesAreWired(c, s.(verification := s'.verification).(publish := None), "verify", d);
      }
    } else {
      var named, d :| Accepts(c, s, s', named, d);
      ReentriesAreWired(c, s, "acceptance", d);
    }
  }

  lemma OtherStepsAreWired(c: Setting, s: State, s': State)
    requires Step(c, s, s') && s.node != QaReview && s.node != Node.Acceptance
    ensures Wired(s.node, s'.node)
  {
    hide Evaluates, IsContractFor, IsPlanned, Scheduler.Progression, Scheduler.Select, SetStatus, Repairable,
         AgentRetry.Decide, ExecutionReview, PublishReview;
  }

  /** Every step of the state machine follows an edge of the graph. */
  lemma StepsAreWired(c: Setting, s: State, s': State)
    requires Step(c, s, s')
    ensures Wired(s.node, s'.node)
  {
    hide *;
    if s.node == QaReview || s.node == Node.Acceptance {
      DecisionStepsAreWired(c, s, s');
    } else {
      OtherStepsAreWired(c, s, s');
    }
  }
}
