/** Which state fields every stage finds, and leaves behind (models/state.py, stages/common.py). */
module DataFlow {
  import opened Prelude
  import opened Topology
  import LoopPolicy

  /** The state fields the stage contracts speak about; the fields of `WorkflowState` that no
      contract requires and no re-entry clears are not listed. */
  datatype Field =
    | TaskField | TaskArtifact
    | ClassificationRequest | ClassificationResult | Classification
    | RouteRequest | RouteResult | RouteDecision
    | ResearchRequest | ResearchResult | ObservationRequest | ObservationResult
    | ContextPacket
    | ObligationRequest | ObligationResult | ObligationsField
    | DoneContractField
    | PlanRequest | PlanResult | PlanField | AcceptanceContract | DecompositionPlan | ActivePacketId
    | PacketProgression
    | PolicyDecision | ApprovalRequest
    | WorkspaceBranch | WorkspaceRoot | EnvironmentPlan
    | ExecutionRequest | ExecutionResult
    | ReviewResult | ExecutionReviewDecision
    | QaPlanField | QaExecutionReport | QaReviewResult
    | VerificationRequest | VerificationResult
    | AcceptanceDecision
    | PublishRequest | PublishResult | PublishReviewDecision
    | RepairRequests | RepairResults
    | FinalReport

  // ----- the stage contracts -----

  function Required(n: Node): set<Field> {
    match n
    case Intake | Classify | BuildContext | Finalize => {TaskField}
    case Route => {TaskField, Classification}
    case Research | Observe => {TaskField, RouteDecision}
    case Obligations => {TaskField, Classification, RouteDecision, ContextPacket}
    case DoneContract => {TaskField, Classification, ObligationsField}
    case Plan => {TaskField, Classification, ContextPacket, ObligationsField, DoneContractField}
    case Policy => {TaskField, Classification, RouteDecision, PlanField}
    case Approval => {PolicyDecision}
    case WorkspacePrepare => {TaskField, DoneContractField}
    case Execute => {TaskField, PlanField, ContextPacket}
    case Review => {TaskField, PlanField, ExecutionResult, DoneContractField}
    case QaPlan => {TaskField, PlanField, DoneContractField}
    case QaExecute => {TaskField, QaPlanField, WorkspaceRoot}
    case QaReview => {TaskField, PlanField, ExecutionResult, ContextPacket, QaExecutionReport}
    case Repair => {TaskField, PlanField, ExecutionResult}
    case Acceptance => {TaskField, AcceptanceContract}
    case Publish => {TaskField, PlanField, ExecutionResult, DoneContractField, AcceptanceDecision}
    case PostPublishVerify => {TaskField, PlanField, PublishResult}
    case Dispatch | End => {}
  }

  function Produced(n: Node): set<Field> {
    match n
    case Intake => {TaskArtifact}
    case Classify => {ClassificationRequest, ClassificationResult, Classification}
    case Route => {RouteRequest, RouteResult, RouteDecision}
    case Research => {ResearchRequest, ResearchResult}
    case Observe => {ObservationRequest, ObservationResult}
    case BuildContext => {ContextPacket}
    case Obligations => {ObligationRequest, ObligationResult, ObligationsField}
    case DoneContract => {DoneContractField}
    case Plan => {PlanRequest, PlanResult, PlanField, AcceptanceContract, DecompositionPlan, ActivePacketId}
    case Policy => {PolicyDecision}
    case Approval => {ApprovalRequest}
    case WorkspacePrepare => {WorkspaceBranch, WorkspaceRoot, EnvironmentPlan}
    case Execute => {ExecutionRequest, ExecutionResult}
    case Review => {ReviewResult, ExecutionReviewDecision}
    case QaPlan => {QaPlanField}
    case QaExecute => {QaExecutionReport}
    case QaReview => {VerificationRequest, VerificationResult, QaReviewResult}
    case Repair => {RepairRequests, RepairResults, ExecutionResult}
    case Acceptance => {AcceptanceDecision}
    case Publish => {PublishRequest, PublishResult}
    case PostPublishVerify => {PublishReviewDecision}
    case Finalize => {FinalReport}
    case Dispatch | End => {}
  }

  /** `STATUS_REQUIRED_FIELDS` of the status a stage leaves behind. */
  function DemandedByStatus(n: Node): set<Field> {
    match n
    case Intake => {TaskField, TaskArtifact}
    case Classify => {TaskField, Classification}
    case Route => {TaskField, Classification, RouteDecision}
    case Research => {TaskField, ResearchResult}
    case Observe => {TaskField, ObservationResult}
    case BuildContext => {TaskField, ContextPacket}
    case Obligations => {TaskField, ObligationsField}
    case DoneContract => {TaskField, DoneContractField}
    case Plan => {TaskField, PlanField, AcceptanceContract, DecompositionPlan}
    case Policy => {TaskField, PlanField, PolicyDecision}
    case Approval => {TaskField, PolicyDecision, ApprovalRequest}
    case WorkspacePrepare => {TaskField, WorkspaceBranch, WorkspaceRoot, EnvironmentPlan}
    case Execute => {TaskField, PlanField, ExecutionResult}
    case Review => {TaskField, ExecutionResult, ReviewResult, ExecutionReviewDecision}
    case QaPlan => {TaskField, QaPlanField}
    case QaExecute => {TaskField, WorkspaceRoot, QaExecutionReport}
    case QaReview => {TaskField, QaReviewResult}
    case Repair => {TaskField, ExecutionResult, RepairResults}
    case Acceptance => {TaskField, AcceptanceDecision}
    case Publish => {TaskField, PublishResult}
    case PostPublishVerify => {TaskField, PublishResult, PublishReviewDecision}
    case Finalize => {TaskField, FinalReport}
    case Dispatch | End => {TaskField}
  }

  /** The stages that cannot do without a field. */
  function Readers(f: Field): set<Node> {
    match f
    case TaskField => set n: Node | n.IsStage() && n != Approval
    case Classification => {Route, Obligations, DoneContract, Plan, Policy}
    case RouteDecision => {Research, Observe, Obligations, Policy}
    case ContextPacket => {Obligations, Plan, Execute, QaReview}
    case ObligationsField => {DoneContract, Plan}
    case DoneContractField => {Plan, WorkspacePrepare, Review, QaPlan, Publish}
    case PlanField => {Policy, Execute, Review, QaPlan, QaReview, Repair, Publish, PostPublishVerify}
    case PolicyDecision => {Approval}
    case ExecutionResult => {Review, QaReview, Repair, Publish}
    case QaPlanField | WorkspaceRoot => {QaExecute}
    case QaExecutionReport => {QaReview}
    case AcceptanceContract => {Acceptance}
    case AcceptanceDecision => {Publish}
    case PublishResult => {PostPublishVerify}
    case _ => {}
  }

  /** The stages whose status stands for a field, besides the task. */
  function Vouchers(f: Field): set<Node> {
    match f
    case TaskArtifact => {Intake}
    case Classification => {Classify, Route}
    case RouteDecision => {Route}
    case ResearchResult => {Research}
    case ObservationResult => {Observe}
    case ContextPacket => {BuildContext}
    case ObligationsField => {Obligations}
    case DoneContractField => {DoneContract}
    case PlanField => {Plan, Policy, Execute}
    case AcceptanceContract | DecompositionPlan => {Plan}
    case PolicyDecision => {Policy, Approval}
    case ApprovalRequest => {Approval}
    case WorkspaceBranch | EnvironmentPlan => {WorkspacePrepare}
    case WorkspaceRoot => {WorkspacePrepare, QaExecute}
    case ExecutionResult => {Execute, Review, Repair}
    case ReviewResult | ExecutionReviewDecision => {Review}
    case QaPlanField => {QaPlan}
    case QaExecutionReport => {QaExecute}
    case QaReviewResult => {QaReview}
    case RepairResults => {Repair}
    case AcceptanceDecision => {Acceptance}
    case PublishResult => {Publish, PostPublishVerify}
    case PublishReviewDecision => {PostPublishVerify}
    case FinalReport => {Finalize}
    case _ => {}
  }

  predicate Planning(n: Node) {
    n in {Dispatch, Intake, Classify, Route, Research, Observe, BuildContext, Obligations, DoneContract, Plan, Policy}
  }

  predicate Executing(n: Node) { n in {Approval, WorkspacePrepare, Execute, Review, Repair} }

  lemma PlanningReaders(n: Node, f: Field)
    requires Planning(n)
    ensures f in Required(n) <==> n in Readers(f)
  {
    hide Vouchers, DemandedByStatus;
  }

  lemma ExecutingReaders(n: Node, f: Field)
    requires Executing(n)
    ensures f in Required(n) <==> n in Readers(f)
  {
    hide Vouchers, DemandedByStatus;
  }

  lemma VerifyingReaders(n: Node, f: Field)
    requires !Planning(n) && !Executing(n)
    ensures f in Required(n) <==> n in Readers(f)
  {
    hide Vouchers, DemandedByStatus;
  }

  lemma PlanningVouchers(n: Node, f: Field)
    requires Planning(n)
    ensures f in DemandedByStatus(n) <==> f == TaskField || n in Vouchers(f)
  {
    hide Readers, Required;
  }

  lemma ExecutingVouchers(n: Node, f: Field)
    requires Executing(n)
    ensures f in DemandedByStatus(n) <==> f == TaskField || n in Vouchers(f)
  {
    hide Readers, Required;
  }

  lemma VerifyingVouchers(n: Node, f: Field)
    requires !Planning(n) && !Executing(n)
    ensures f in DemandedByStatus(n) <==> f == TaskField || n in Vouchers(f)
  {
    hide Readers, Required;
  }

  /** The stage contracts and the statuses, field by field. */
  lemma FieldsByStage(n: Node, f: Field)
    ensures f in Required(n) <==> n in Readers(f)
    ensures f in DemandedByStatus(n) <==> f == TaskField || n in Vouchers(f)
  {
    hide Readers, Required, Vouchers, DemandedByStatus, Planning, Executing;
    if Planning(n) {
      PlanningReaders(n, f);
      PlanningVouchers(n, f);
    } else if Executing(n) {
      ExecutingReaders(n, f);
      ExecutingVouchers(n, f);
    } else {
      VerifyingReaders(n, f);
      VerifyingVouchers(n, f);
    }
  }

  // ----- what a stage takes away again -----

  /** `_clear_for_reentry`, for the targets a re-entry or its denial can have. */
  predicate Clears(target: Node, f: Field) {
    || f in {PolicyDecision, ApprovalRequest, PublishRequest, PublishResult, PublishReviewDecision, VerificationRequest}
    || (target in {Research, Observe, BuildContext, Obligations} && f == ObligationsField)
    || (target in {Research, Observe, BuildContext, Obligations, Plan}
        && f in {PlanField, AcceptanceContract, DecompositionPlan, ActivePacketId, PacketProgression})
    || (target in {Research, Observe, BuildContext} && f == ContextPacket)
  }

  /** What the repair stage resets. */
  predicate StaleAfterRepair(f: Field) {
    f in {PublishRequest, PublishResult, PublishReviewDecision, VerificationRequest, VerificationResult,
          AcceptanceDecision}
  }

  function Cleared(fields: set<Field>, target: Node): set<Field> {
    set f | f in fields && !Clears(target, f)
  }

  predicate MayReenter(n: Node) { n == QaReview || n == Acceptance }

  predicate LoopTarget(n: Node) { n in {Research, Observe, BuildContext, Obligations, Plan} }

  // ----- runs over the graph -----

  datatype Point = Point(node: Node, present: set<Field>)

  /** One stage and the edge after it; a re-entry that is denied clears fields on its way to
      finalize as well. */
  predicate Goes(p: Point, q: Point) {
    var filled := p.present + Produced(p.node);
    && Wired(p.node, q.node) && p.node != Dispatch
    && if MayReenter(p.node) && LoopTarget(q.node) then q.present == Cleared(filled, q.node)
       else if MayReenter(p.node) && q.node == Finalize then
         q.present == filled || q.present == Cleared(filled, Finalize)
       else if p.node == Repair then q.present == (set f | f in filled && !StaleAfterRepair(f))
       else q.present == filled
  }

  ghost predicate Path(ps: seq<Point>) {
    && ps != [] && ps[0].node == Intake && TaskField in ps[0].present
    && forall i, j :: 0 <= i < |ps| && j == i + 1 < |ps| ==> Goes(ps[i], ps[j])
  }

  // ----- what is there on every path -----

  /** How far along the pipeline a stage is. */
  function Depth(n: Node): nat {
    match n
    case Dispatch | Intake | Finalize | End => 0
    case Classify => 1
    case Route => 2
    case Research | Observe | BuildContext => 3
    case Obligations => 4
    case DoneContract => 5
    case Plan => 6
    case Policy => 7
    case Approval | WorkspacePrepare => 8
    case Execute => 9
    case Review | Repair => 10
    case QaPlan => 11
    case QaExecute => 12
    case QaReview => 13
    case Acceptance => 14
    case Publish => 15
    case PostPublishVerify => 16
  }

  /** The depth from which on a field is there whatever path was taken. */
  function AvailableFrom(f: Field): nat {
    match f
    case TaskField => 0
    case TaskArtifact => 1
    case Classification => 2
    case RouteDecision => 3
    case ContextPacket => 4
    case ObligationsField => 5
    case DoneContractField => 6
    case PlanField | AcceptanceContract | DecompositionPlan => 7
    case PolicyDecision => 8
    case WorkspaceBranch | WorkspaceRoot | EnvironmentPlan => 9
    case ExecutionResult => 10
    case QaPlanField => 12
    case QaExecutionReport => 13
    case VerificationResult => 14
    case AcceptanceDecision => 15
    case PublishResult => 16
    case _ => 17
  }

  /** Everything available at the depth of this stage is present. */
  ghost predicate Supplied(p: Point) {
    forall f :: AvailableFrom(f) <= Depth(p.node) ==> f in p.present
  }

  lemma RequiredIsAvailable(n: Node, f: Field)
    requires f in Required(n)
    ensures AvailableFrom(f) <= Depth(n)
  {
  }

  /** An edge goes at most one level deeper, and the stage before it produced what that level
      adds. */
  lemma EdgesDescendOneLevel(a: Node, b: Node, f: Field)
    requires Wired(a, b) && a != Dispatch
    ensures Depth(b) <= Depth(a) + 1
    ensures Depth(a) < AvailableFrom(f) <= Depth(b) ==> f in Produced(a)
  {
    DeeperByOne(a, b);
    if Depth(b) == Depth(a) + 1 == AvailableFrom(f) { NextLevelIsProduced(a, b, f); }
  }

  lemma DeeperByOne(a: Node, b: Node)
    requires Wired(a, b) && a != Dispatch
    ensures Depth(b) <= Depth(a) + 1
  {
  }

  lemma NextLevelIsProduced(a: Node, b: Node, f: Field)
    requires Wired(a, b) && a != Dispatch && Depth(b) == Depth(a) + 1 == AvailableFrom(f)
    ensures f in Produced(a)
  {
    hide Required, DemandedByStatus, Clears;
  }

  lemma ClearingIsHarmless(a: Node, target: Node, f: Field)
    requires MayReenter(a) && (LoopTarget(target) || target == Finalize) && Clears(target, f)
    ensures Depth(target) < AvailableFrom(f) && f !in DemandedByStatus(a)
  {
  }

  lemma RepairIsHarmless(f: Field)
    requires StaleAfterRepair(f)
    ensures Depth(Review) < AvailableFrom(f) && f !in DemandedByStatus(Repair)
    ensures forall b :: Wired(Repair, b) ==> b == Review
  {
  }

  lemma StatusIsCovered(n: Node, f: Field)
    requires f in DemandedByStatus(n) && n != End
    ensures AvailableFrom(f) <= Depth(n) || f in Produced(n)
  {
  }

  lemma EndIsLast(b: Node)
    ensures !Wired(End, b)
  {
  }

  lemma OneStage(p: Point, q: Point)
    requires Goes(p, q) && Supplied(p)
    ensures Supplied(q) && DemandedByStatus(p.node) <= q.present
  {
    hide Depth, AvailableFrom, DemandedByStatus, Produced, Clears, StaleAfterRepair, Wired;
    EndIsLast(q.node);
    forall f | AvailableFrom(f) <= Depth(q.node) || f in DemandedByStatus(p.node) ensures f in q.present {
      EdgesDescendOneLevel(p.node, q.node, f);
      if f in DemandedByStatus(p.node) { StatusIsCovered(p.node, f); }
      assert f in p.present + Produced(p.node);
      if StaleAfterRepair(f) { RepairIsHarmless(f); }
      if MayReenter(p.node) && (LoopTarget(q.node) || q.node == Finalize) && Clears(q.node, f) {
        ClearingIsHarmless(p.node, q.node, f);
      }
    }
  }

  lemma {:induction false} SuppliedOnEveryPath(ps: seq<Point>, i: nat)
    requires Path(ps) && i < |ps|
    ensures Supplied(ps[i])
  {
    hide Goes;
    if i > 0 {
      SuppliedOnEveryPath(ps, i - 1);
      OneStage(ps[i - 1], ps[i]);
    }
  }

  /** On every path from intake, over any wired edges and any number of re-entries and repairs, a
      stage finds the fields its contract requires and leaves the fields its status demands. */
  lemma NoStageIsRejected(ps: seq<Point>, i: nat)
    requires Path(ps) && i < |ps|
    ensures Required(ps[i].node) <= ps[i].present
    ensures i + 1 < |ps| ==> DemandedByStatus(ps[i].node) <= ps[i + 1].present
  {
    hide Goes, Required, DemandedByStatus;
    SuppliedOnEveryPath(ps, i);
    forall f | f in Required(ps[i].node) ensures f in ps[i].present {
      RequiredIsAvailable(ps[i].node, f);
    }
    if i + 1 < |ps| {
      OneStage(ps[i], ps[i + 1]);
    }
  }

  // ----- what a re-entry is for -----

  /** What each trigger finds missing or out of date. */
  function Missing(t: LoopPolicy.Trigger): Option<Field> {
    match t
    case NoTrigger => None
    case MissingResearchEvidence => Some(ResearchResult)
    case MissingRepositoryObservation | MissingWorldObservation => Some(ObservationResult)
    case SetupGap | EnvironmentPrerequisiteMissing | RepairExhausted => Some(ObservationResult)
    case MissingContext => Some(ContextPacket)
    case PlanIncomplete | PublishDeeperPlanning | PacketReplanning => Some(PlanField)
    case MissingObligations | VerificationMissingEvidence | AcceptanceMissingObligations | NewSideEffects =>
      Some(ObligationsField)
    case DocsImpact | ExamplesImpact | CiBuildImpact | CodegenBuildImpact | IntegrationScope => Some(ObligationsField)
  }

  /** What planning derives from the evidence. */
  predicate Derived(f: Field) {
    f in {ContextPacket, ObligationsField, PlanField, AcceptanceContract, DecompositionPlan}
  }

  /** A re-entry that is taken goes to the one stage that produces what was missing. When it re-enters
      from QA review or acceptance, everything a later stage derives up to the plan is dropped, and
      nothing the target itself requires. */
  lemma ReentryRestoresWhatIsMissing(source: string, t: LoopPolicy.Trigger, prior: seq<LoopPolicy.Decision>,
                                     b: LoopPolicy.Budget, base: LoopPolicy.Lifecycle.Facts,
                                     evaluate: LoopPolicy.Lifecycle.Evaluator, n: Node, f: Field)
    requires LoopPolicy.Evaluate(source, t, prior, b, base, evaluate).automatic
    ensures var target := NodeOf(LoopPolicy.TargetFor(t));
            && target.Some? && LoopTarget(target.value) && Missing(t).Some?
            && (Missing(t).value in Produced(n) <==> n == target.value)
            && (f in Required(target.value) ==> !Clears(target.value, f))
            && (Derived(f) && AvailableFrom(f) > Depth(target.value) ==> Clears(target.value, f))
  {
    hide LoopPolicy.Exhausted;
    TargetProducesMissing(t, n);
    TargetKeepsItsInputs(NodeOf(LoopPolicy.TargetFor(t)).value, f);
  }

  lemma TargetProducesMissing(t: LoopPolicy.Trigger, n: Node)
    requires !t.NoTrigger?
    ensures var target := NodeOf(LoopPolicy.TargetFor(t));
            target.Some? && LoopTarget(target.value) && (Missing(t).value in Produced(n) <==> n == target.value)
  {
    hide Required, DemandedByStatus, Clears;
  }

  lemma TargetKeepsItsInputs(target: Node, f: Field)
    requires LoopTarget(target)
    ensures f in Required(target) ==> !Clears(target, f)
    ensures Derived(f) && AvailableFrom(f) > Depth(target) ==> Clears(target, f)
  {
    hide Produced, DemandedByStatus;
  }
}
