/** Where an interrupted run resumes (control_plane/recovery.py, stages/base.py), and how that
    compares with where it was going (control_plane/kernel.py, the routers in stages/). */
module Recovery {
  import opened Prelude
  import opened Topology
  import opened DataFlow
  import LoopPolicy
  import Lifecycle
  import Packets
  import Pipeline
  import Scheduler

  datatype Status =
    | Created | IntakeCompleted | Classified | Routed | Researched | Observed | ContextBuilt
    | ObligationsSynthesized | DoneContractBuilt | Planned | PolicyChecked | ApprovalResolved
    | WorkspacePrepared | Executed | Reviewed | QaPlanned | QaExecuted | QaReviewed | ExecutionReviewed
    | Repaired | PublishReviewed | Published | PostPublishVerified | Verified | AcceptanceEvaluated | Terminal

  datatype Needs = Needs(research: bool, observation: bool)

  datatype PolicyVerdict = PolicyVerdict(blocked: bool, requiresApproval: bool)

  /** A stage name as recorded; "verify" names no node of the graph. */
  datatype Label = Stage(node: Node) | VerifyLabel

  datatype Snapshot = Snapshot(
    status: Status,
    reported: bool,
    decisions: seq<Label>,
    route: Option<Needs>,
    policy: Option<PolicyVerdict>,
    approved: Option<bool>)

  predicate NeedsObservation(s: Snapshot) { s.route.Some? && s.route.value.observation }

  /** `_derive_resume_stage`: the last controller decision, else a map from the status. */
  function DeriveResumeStage(s: Snapshot): Option<Label> {
    if s.decisions != [] then Some(s.decisions[|s.decisions| - 1])
    else match s.status
      case Created => Some(Stage(Intake))
      case IntakeCompleted => Some(Stage(Classify))
      case Classified => Some(Stage(Route))
      case Routed =>
        Some(Stage(if s.route.Some? && s.route.value.research then Research
                   else if NeedsObservation(s) then Observe else BuildContext))
      case Researched => Some(Stage(if NeedsObservation(s) then Observe else BuildContext))
      case Observed => Some(Stage(BuildContext))
      case ContextBuilt => Some(Stage(Obligations))
      case ObligationsSynthesized => Some(Stage(DoneContract))
      case DoneContractBuilt => Some(Stage(Plan))
      case Planned => Some(Stage(Policy))
      case PolicyChecked =>
        Some(Stage(if s.policy.Some? && s.policy.value.requiresApproval then Approval
                   else if s.policy.Some? && !s.policy.value.blocked then WorkspacePrepare else Finalize))
      case ApprovalResolved => Some(Stage(if s.approved == Some(true) then WorkspacePrepare else Finalize))
      case WorkspacePrepared => Some(Stage(Execute))
      case Executed => Some(Stage(Review))
      case Reviewed => Some(Stage(QaPlan))
      case QaPlanned => Some(Stage(QaExecute))
      case QaExecuted => Some(Stage(QaReview))
      case QaReviewed => Some(Stage(Acceptance))
      case Repaired => Some(Stage(Review))
      case PublishReviewed => Some(VerifyLabel)
      case Published => Some(Stage(PostPublishVerify))
      case PostPublishVerified => Some(Stage(Finalize))
      case Verified => Some(Stage(Acceptance))
      case AcceptanceEvaluated => Some(Stage(Finalize))
      case ExecutionReviewed | Terminal => None
  }

  /** `build_resume_decision`; `None` means resuming is not allowed. */
  function Resume(s: Snapshot): Option<Label> {
    if s.reported || s.status.Terminal? then None else DeriveResumeStage(s)
  }

  /** `dispatch_next`: a name that is no stage starts the workflow over. */
  function DispatchTo(l: Label): Node {
    if l.Stage? && l.node.IsStage() then l.node else Intake
  }

  function StatusAfter(n: Node): Status {
    match n
    case Intake => IntakeCompleted
    case Classify => Classified
    case Route => Routed
    case Research => Researched
    case Observe => Observed
    case BuildContext => ContextBuilt
    case Obligations => ObligationsSynthesized
    case DoneContract => DoneContractBuilt
    case Plan => Planned
    case Policy => PolicyChecked
    case Approval => ApprovalResolved
    case WorkspacePrepare => WorkspacePrepared
    case Execute => Executed
    case Review => Reviewed
    case QaPlan => QaPlanned
    case QaExecute => QaExecuted
    case QaReview => QaReviewed
    case Repair => Repaired
    case Acceptance => AcceptanceEvaluated
    case Publish => Published
    case PostPublishVerify => PostPublishVerified
    case Finalize => Terminal
    case Dispatch | End => Created
  }

  // ----- when a resume is refused -----

  /** A resume is refused for a reported or finished run, and for a run that recorded no decision and
      stands at a status no stage follows; for no other. */
  lemma ResumeRefusedIff(s: Snapshot)
    ensures Resume(s).None? <==>
            s.reported || s.status == Terminal || (s.decisions == [] && s.status == ExecutionReviewed)
    ensures Resume(s).Some? && s.decisions != [] ==> Resume(s).value == s.decisions[|s.decisions| - 1]
  {
  }

  // ----- without controller decisions -----

  /** The fields of a checkpoint written after a stage that asked for no re-entry. */
  function CheckpointFields(p: Point): set<Field> {
    var filled := p.present + Produced(p.node);
    if p.node == Repair then set f | f in filled && !StaleAfterRepair(f) else filled
  }

  /** A checkpoint without controller decisions resumes at a wired successor of the stage that
      wrote it, and everything that successor requires is there. */
  lemma ResumesAtReadySuccessor(p: Point, s: Snapshot)
    requires Supplied(p) && p.node.IsStage() && p.node != Finalize
    requires s.decisions == [] && !s.reported && s.status == StatusAfter(p.node)
    ensures Resume(s).Some? && Resume(s).value.Stage?
    ensures Wired(p.node, Resume(s).value.node)
    ensures Required(Resume(s).value.node) <= CheckpointFields(p)
  {
    var next := Resume(s).value.node;
    assert Wired(p.node, next);
    assert Goes(p, Point(next, CheckpointFields(p)));
    hide *;
    OneStage(p, Point(next, CheckpointFields(p)));
    AllRequired(Point(next, CheckpointFields(p)));
  }

  lemma AllRequired(p: Point)
    requires Supplied(p)
    ensures Required(p.node) <= p.present
  {
    hide Required, AvailableFrom, Depth;
    forall f | f in Required(p.node) ensures f in p.present { RequiredIsAvailable(p.node, f); }
  }

  /** `next_after_route` */
  function NextAfterRoute(needs: Needs, freshness: bool): Node {
    if needs.observation then Observe else if freshness || needs.research then Research else BuildContext
  }

  /** `next_after_research` */
  function NextAfterResearch(needs: Needs): Node {
    if needs.observation then Observe else BuildContext
  }

  /** `next_after_policy` */
  function NextAfterPolicy(d: PolicyVerdict): Node {
    if d.blocked then Finalize else if d.requiresApproval then Approval else WorkspacePrepare
  }

  /** `next_after_approval`; `None` stands for no request and for an undecided one. */
  function NextAfterApproval(approved: Option<bool>): Node {
    if approved == Some(true) then WorkspacePrepare else Finalize
  }

  /** The status map disagrees with the kernel in three cases only: after routing when both research
      and observation are needed, or neither but fresh facts are wanted, and after a policy verdict that is
      blocked and asks for approval. */
  lemma StatusMapAgreesIff(s: Snapshot, needs: Needs, verdict: PolicyVerdict, freshness: bool)
    requires s.decisions == [] && !s.reported && s.route == Some(needs) && s.policy == Some(verdict)
    ensures s.status == Routed ==>
              (Resume(s) == Some(Stage(NextAfterRoute(needs, freshness)))
               <==> if needs.observation then !needs.research else needs.research || !freshness)
    ensures s.status == Researched ==> Resume(s) == Some(Stage(NextAfterResearch(needs)))
    ensures s.status == PolicyChecked ==>
              (Resume(s) == Some(Stage(NextAfterPolicy(verdict))) <==> !(verdict.blocked && verdict.requiresApproval))
    ensures s.status == ApprovalResolved ==> Resume(s) == Some(Stage(NextAfterApproval(s.approved)))
  {
  }

  /** `evaluate_policy`: any evidence problem blocks, else the engine asks for approval or not. */
  function EvaluatePolicy(problems: nat, requiresApproval: bool): (d: PolicyVerdict)
    ensures !(d.blocked && d.requiresApproval)
    ensures d.blocked <==> problems != 0
    ensures problems == 0 ==> (d.requiresApproval <==> requiresApproval)
  {
    if problems > 0 then PolicyVerdict(true, false) else PolicyVerdict(false, requiresApproval)
  }

  // ----- with controller decisions: whole runs -----

  datatype ReviewStatus = ReviewPass | ReviewRetry | ReviewFailCode | ReviewViolation

  /** One stage visit with the facts its node and its router read. `missing` and `gaps` say whether
      review found derived deliverables missing and QA review found gaps in the evidence. */
  datatype Visit =
    | Plain(stage: Node)
    | AtRoute(needs: Needs, freshness: bool)
    | AtResearch(ok: bool, observed: bool, needs: Needs)
    | AtObserve(ok: bool, researchWanted: bool)
    | AtPlan
    | AtPolicy(verdict: PolicyVerdict)
    | AtApproval(approved: Option<bool>)
    | AtWorkspacePrepare
    | AtExecute
    | AtReview(review: ReviewStatus, decomposition: Option<Packets.Plan>, active: Option<Packets.Strategy>, missing: bool)
    | AtQaReview(qa: Pipeline.QaVerdict, target: LoopPolicy.Target, gaps: bool)
    | AtRepair
    | AtAcceptance(target: LoopPolicy.Target, publish: bool, accepted: bool)
    | AtPostPublish(next: Lifecycle.Next)
  {
    function Node(): Node {
      match this
      case Plain(stage) => stage
      case AtRoute(_, _) => Route
      case AtResearch(_, _, _) => Research
      case AtObserve(_, _) => Observe
      case AtPlan => Plan
      case AtPolicy(_) => Policy
      case AtApproval(_) => Approval
      case AtWorkspacePrepare => WorkspacePrepare
      case AtExecute => Execute
      case AtReview(_, _, _, _) => Review
      case AtQaReview(_, _, _) => QaReview
      case AtRepair => Repair
      case AtAcceptance(_, _, _) => Acceptance
      case AtPostPublish(_) => PostPublishVerify
    }

    /** What the loop policy and the lifecycle machine can produce at this stage. */
    predicate Possible() {
      match this
      case Plain(stage) =>
        stage in {Intake, Classify, BuildContext, Obligations, DoneContract, QaPlan, QaExecute, Publish, Finalize}
      case AtQaReview(qa, target, _) =>
        !target.ToExecute? && !target.ToVerify? && (qa.QaFailCode? ==> target.ToContinue?)
      case AtAcceptance(target, _, _) => !target.ToExecute? && !target.ToVerify?
      case AtPostPublish(next) => next.NextRepair? || next.NextVerify? || next.NextFinalize?
      case _ => true
    }

    /** The progression a passing review evaluates when there is a decomposition plan. */
    function Progress(): Option<Scheduler.Progress> {
      if AtReview? && review.ReviewPass? && decomposition.Some?
      then Some(Scheduler.Progression(decomposition.value, active)) else None
    }

    /** Where the graph goes from here: the edge, or what the router picks. */
    function Live(): Node {
      match this
      case Plain(stage) => if Straight(stage).Some? then Straight(stage).value else End
      case AtRoute(needs, freshness) => NextAfterRoute(needs, freshness)
      case AtResearch(ok, observed, needs) =>
        if !ok then Finalize else if observed then BuildContext else NextAfterResearch(needs)
      case AtObserve(ok, researchWanted) => if !ok then Finalize else if researchWanted then Research else BuildContext
      case AtPlan => Policy
      case AtPolicy(verdict) => NextAfterPolicy(verdict)
      case AtApproval(approved) => NextAfterApproval(approved)
      case AtWorkspacePrepare => Execute
      case AtExecute => Review
      case AtReview(review, _, _, _) =>
        match review {
          case ReviewPass =>
            if Progress().None? then QaPlan else Pipeline.AfterProgression(Progress().value.nextStage)
          case ReviewRetry => Execute
          case ReviewFailCode => Repair
          case ReviewViolation => Finalize
        }
      case AtQaReview(qa, target, _) =>
        if qa.QaFailCode? then Repair
        else if NodeOf(target).Some? && NodeOf(target).value in
                  {Research, Observe, BuildContext, Obligations, Plan, Finalize} then NodeOf(target).value
        else if qa.QaPass? || qa.QaFailEnv? then Acceptance else Finalize
      case AtRepair => Review
      case AtAcceptance(target, publish, _) =>
        if NodeOf(target).Some? then NodeOf(target).value else if publish then Publish else Finalize
      case AtPostPublish(next) => if next.NextRepair? then Repair else Finalize
    }

    /** The next stage the node itself writes into a controller decision, if it writes one. */
    function Own(): seq<Label> {
      match this
      case Plain(_) | AtObserve(_, _) | AtPlan => []
      case AtRoute(needs, freshness) => [Stage(NextAfterRoute(needs, freshness))]
      case AtResearch(_, _, needs) => [Stage(NextAfterResearch(needs))]
      case AtPolicy(verdict) => [Stage(NextAfterPolicy(verdict))]
      case AtApproval(approved) => [Stage(NextAfterApproval(approved))]
      case AtWorkspacePrepare => [Stage(Execute)]
      case AtExecute | AtRepair => [Stage(Review)]
      case AtReview(review, _, _, _) =>
        match review {
          case ReviewPass => if Progress().None? then [Stage(QaPlan)] else [OfProgression(Progress().value.nextStage)]
          case ReviewRetry => [Stage(Execute)]
          case ReviewFailCode => [Stage(Repair)]
          case ReviewViolation => [Stage(Finalize)]
        }
      case AtQaReview(qa, target, _) =>
        if qa.QaFailCode? then [Stage(Repair)]
        else if !target.ToContinue? then [OfTarget(target)]
        else if qa.QaPass? || qa.QaFailEnv? then [Stage(Acceptance)] else [Stage(Finalize)]
      case AtAcceptance(target, publish, _) =>
        if !target.ToContinue? then [OfTarget(target)] else [Stage(if publish then Publish else Finalize)]
      case AtPostPublish(next) => [OfNext(next)]
    }

    /** The visit ends with a strategy checkpoint. */
    predicate Checkpoints() {
      match this
      case AtPlan => true
      case AtReview(review, _, _, missing) =>
        !review.ReviewPass? || missing || (Progress().Some? && Progress().value.blocked)
      case AtQaReview(qa, _, gaps) => !qa.QaPass? || gaps
      case AtAcceptance(target, _, accepted) => !target.ToContinue? || !accepted
      case _ => false
    }

    /** The controller decisions the visit appends. A strategy checkpoint appends one naming its own
        stage; repair takes its checkpoint before its own decision, the others after it. */
    function Recorded(): seq<Label> {
      if AtRepair? then [Stage(Repair)] + Own()
      else if Checkpoints() then Own() + [Stage(Node())] else Own()
    }

    /** Exactly when resuming right after this visit goes where the run was going. */
    predicate Faithful() {
      match this
      case Plain(stage) => stage == Intake || stage == Classify
      case AtObserve(_, _) => false
      case AtResearch(ok, observed, needs) => ok && !(observed && needs.observation)
      case AtPostPublish(next) => !next.NextVerify?
      case _ => !Checkpoints()
    }
  }

  function OfProgression(next: Scheduler.NextStage): Label {
    match next
    case ToQaPlan => Stage(QaPlan)
    case ToExecute => Stage(Execute)
    case ToVerify => VerifyLabel
    case ToFinalize => Stage(Finalize)
  }

  function OfTarget(target: LoopPolicy.Target): Label {
    if NodeOf(target).Some? then Stage(NodeOf(target).value) else VerifyLabel
  }

  function OfNext(next: Lifecycle.Next): Label {
    match next
    case NextPublish => Stage(Publish)
    case NextVerify => VerifyLabel
    case NextRepair => Stage(Repair)
    case NextReview => Stage(Review)
    case NextFinalize => Stage(Finalize)
  }

  ghost predicate Trace(vs: seq<Visit>) {
    && vs != [] && vs[0] == Plain(Intake)
    && (forall i :: 0 <= i < |vs| ==> vs[i].Possible())
    && (forall i, j :: 0 <= i < |vs| && j == i + 1 < |vs| ==> vs[j].Node() == vs[i].Live())
  }

  /** Without decisions the status map takes every stage to have gone well: review and QA review passed,
      and acceptance left nothing to publish. */
  lemma StatusMapIsOptimistic(s: Snapshot)
    requires s.decisions == [] && !s.reported
    ensures s.status == Created ==> Resume(s) == Some(Stage(Intake))
    ensures s.status == Observed ==> Resume(s) == Some(Stage(AtObserve(true, false).Live()))
    ensures s.status == Verified ==> Resume(s) == Some(Stage(Acceptance))
    ensures s.status == PublishReviewed ==> Resume(s).Some? && DispatchTo(Resume(s).value) == Intake
    ensures s.status == Reviewed ==> Resume(s) == Some(Stage(AtReview(ReviewPass, None, None, false).Live()))
    ensures s.status == QaReviewed ==>
              Resume(s) == Some(Stage(AtQaReview(Pipeline.QaPass, LoopPolicy.ToContinue, false).Live()))
    ensures s.status == AcceptanceEvaluated ==>
              Resume(s) == Some(Stage(AtAcceptance(LoopPolicy.ToContinue, false, true).Live()))
    ensures s.status == PostPublishVerified ==> Resume(s) == Some(Stage(AtPostPublish(Lifecycle.NextFinalize).Live()))
  {
  }

  /** Every stage's move is a wired edge. */
  lemma LiveIsWired(v: Visit)
    requires v.Possible()
    ensures Wired(v.Node(), v.Live())
  {
    hide Scheduler.Progression;
  }

  /** ... and every wired edge is one that some stage takes. */
  lemma WiredIsLive(a: Node, b: Node) returns (v: Visit)
    requires Wired(a, b) && a != Dispatch
    ensures v.Possible() && v.Node() == a && v.Live() == b
  {
    match a
    case Review | QaReview | Acceptance | PostPublishVerify => v := DecisionIsLive(a, b);
    case Route | Research | Observe | Policy | Approval => v := ChoiceIsLive(a, b);
    case Plan => v := AtPlan;
    case WorkspacePrepare => v := AtWorkspacePrepare;
    case Execute => v := AtExecute;
    case Repair => v := AtRepair;
    case _ => v := Plain(a);
  }

  lemma ChoiceIsLive(a: Node, b: Node) returns (v: Visit)
    requires Wired(a, b) && a in {Route, Research, Observe, Policy, Approval}
    ensures v.Possible() && v.Node() == a && v.Live() == b
  {
    hide Scheduler.Progression;
    match a
    case Route => v := AtRoute(Needs(b == Research, b == Observe), false);
    case Research => v := AtResearch(b != Finalize, b == BuildContext, Needs(false, true));
    case Observe => v := AtObserve(b != Finalize, b == Research);
    case Policy => v := AtPolicy(PolicyVerdict(b == Finalize, b == Approval));
    case Approval => v := AtApproval(Some(b == WorkspacePrepare));
  }

  lemma DecisionIsLive(a: Node, b: Node) returns (v: Visit)
    requires Wired(a, b) && a in {Review, QaReview, Acceptance, PostPublishVerify}
    ensures v.Possible() && v.Node() == a && v.Live() == b
  {
    hide Scheduler.Progression;
    if a == Review {
      v := AtReview(if b == Execute then ReviewRetry else if b == Repair then ReviewFailCode
                    else if b == Finalize then ReviewViolation else ReviewPass, None, None, false);
    } else if a == PostPublishVerify {
      v := AtPostPublish(if b == Repair then Lifecycle.NextRepair else Lifecycle.NextFinalize);
    } else {
      v := LoopIsLive(a, b);
    }
  }

  lemma LoopIsLive(a: Node, b: Node) returns (v: Visit)
    requires Wired(a, b) && a in {QaReview, Acceptance}
    ensures v.Possible() && v.Node() == a && v.Live() == b
  {
    hide Scheduler.Progression, Visit.Progress;
    if a == QaReview {
      v := AtQaReview(if b == Repair then Pipeline.QaFailCode else if b == Finalize then Pipeline.QaFailRequirements
                      else Pipeline.QaPass, TargetTo(b), false);
    } else {
      v := AtAcceptance(if b == Finalize then LoopPolicy.ToContinue else TargetTo(b), b == Publish, true);
    }
  }

  /** The re-entry target at this stage, if there is one. */
  function TargetTo(n: Node): LoopPolicy.Target {
    match n
    case Research => LoopPolicy.ToResearch
    case Observe => LoopPolicy.ToObserve
    case BuildContext => LoopPolicy.ToBuildContext
    case Obligations => LoopPolicy.ToObligations
    case Plan => LoopPolicy.ToPlan
    case _ => LoopPolicy.ToContinue
  }

  /** A progression that asks for verification always counts as blocked, so review checkpoints then
      and the "verify" it recorded is never its last word. */
  lemma VerifyIsBlocked(plan: Packets.Plan, active: Option<Packets.Strategy>)
    ensures Scheduler.Progression(plan, active).nextStage.ToVerify? ==> Scheduler.Progression(plan, active).blocked
  {
    hide Scheduler.Select;
  }

  /** The controller decisions written up to and including visit `i`. */
  function Written(vs: seq<Visit>, i: nat): seq<Label>
    requires i < |vs|
  {
    (if i == 0 then [] else Written(vs, i - 1)) + vs[i].Recorded()
  }

  predicate CheckpointOf(s: Snapshot, vs: seq<Visit>, i: nat)
    requires i < |vs|
  {
    && s.status == StatusAfter(vs[i].Node()) && s.decisions == Written(vs, i)
    && (s.reported <==> vs[i].Node() == Finalize)
  }

  /** Stages that record nothing, after the first recording one, with the stages a resume from
      there can fall back to. */
  function FallsBackTo(n: Node): set<Node> {
    match n
    case Observe => {Observe, QaReview, Acceptance}
    case BuildContext => {Observe, BuildContext, QaReview, Acceptance}
    case Obligations | DoneContract => {Observe, BuildContext, Obligations, QaReview, Acceptance}
    case QaPlan | QaExecute => {QaPlan, Review}
    case Publish => {Publish, Acceptance}
    case _ => {}
  }

  function LastOf(labels: seq<Label>): Label
    requires labels != []
  {
    labels[|labels| - 1]
  }

  ghost predicate LastDecision(vs: seq<Visit>, i: nat)
    requires i < |vs|
  {
    LastIs(Written(vs, i), vs[i])
  }

  /** What the last of the decisions written up to a visit is worth. */
  predicate LastIs(written: seq<Label>, v: Visit) {
    var n := v.Node();
    && (n == Intake || n == Classify ==> written == [])
    && (v.Recorded() != [] ==> written != [] && LastOf(written) == LastOf(v.Recorded()))
    && (v.Recorded() == [] && n != Intake && n != Classify && n != Finalize ==>
          written != [] && DispatchTo(LastOf(written)) in FallsBackTo(n))
  }

  /** One edge of the fallback table. */
  lemma FallbackGrows(v: Visit, w: Visit)
    requires v.Possible() && w.Possible() && w.Node() == v.Live() && w.Recorded() == [] && w.Node() != Finalize
    ensures w.Node() != Intake
    ensures w.Node() == Classify ==> v.Node() == Intake
    ensures w.Node() != Classify && v.Recorded() != [] ==> DispatchTo(LastOf(v.Recorded())) in FallsBackTo(w.Node())
    ensures w.Node() != Classify && v.Recorded() == [] ==> FallsBackTo(v.Node()) <= FallsBackTo(w.Node())
    ensures w.Node() != Classify ==> v.Node() != Intake && v.Node() != Classify && v.Node() != Finalize
  {
    if v.Progress().Some? { VerifyIsBlocked(v.decomposition.value, v.active); }
    hide Scheduler.Progression;
  }

  lemma NextIsLast(written: seq<Label>, v: Visit, w: Visit)
    requires LastIs(written, v) && v.Possible() && w.Possible() && w.Node() == v.Live()
    ensures LastIs(written + w.Recorded(), w)
  {
    OnlyStartsAtIntake(v);
    EarlyStagesRecordNothing(w);
    if w.Recorded() == [] && w.Node() != Finalize {
      FallbackGrows(v, w);
      assert written + w.Recorded() == written;
    }
    hide Visit.Live, Visit.Possible, Visit.Recorded, Visit.Node, FallsBackTo, DispatchTo;
  }

  lemma {:induction false} LastDecisionOnEveryTrace(vs: seq<Visit>, i: nat)
    requires Trace(vs) && i < |vs|
    ensures LastDecision(vs, i)
  {
    if i > 0 {
      var v, w := vs[i - 1], vs[i];
      assert w.Node() == v.Live() && v.Possible() && w.Possible();
      hide Visit.Live, Visit.Possible, Visit.Recorded, Visit.Node, LastIs, Trace;
      LastDecisionOnEveryTrace(vs, i - 1);
      NextIsLast(Written(vs, i - 1), v, w);
    } else {
      assert vs[0] == Plain(Intake);
    }
  }

  lemma EarlyStagesRecordNothing(v: Visit)
    requires v.Possible()
    ensures v.Node() == Classify ==> v.Recorded() == []
  {
  }

  lemma OnlyStartsAtIntake(v: Visit)
    requires v.Possible()
    ensures v.Live() != Intake && (v.Live() == Classify ==> v.Node() == Intake)
  {
    hide Scheduler.Progression;
  }

  lemma FallbackIsNeverAhead(v: Visit)
    requires v.Possible() && v.Recorded() == []
    ensures v.Live() !in FallsBackTo(v.Node())
    ensures v.Node() != Finalize && v.Node() != Intake && v.Node() != Classify ==> !v.Faithful()
  {
  }

  lemma RecordedAgreesIff(v: Visit)
    requires v.Possible() && v.Recorded() != []
    ensures DispatchTo(LastOf(v.Recorded())) == v.Live() <==> v.Faithful()
    ensures v.Checkpoints() ==> DispatchTo(LastOf(v.Recorded())) == v.Node()
  {
    if v.Progress().Some? { VerifyIsBlocked(v.decomposition.value, v.active); }
    hide Scheduler.Progression;
  }

  /** At every point of every run from intake: a checkpoint can be resumed unless the run has been
      finalized, and resuming goes where the run was going if and only if the visit is faithful. After a
      visit that ended with a strategy checkpoint the run resumes at the same stage again, after a stage
      that records no decision it falls back to an earlier one. */
  lemma ResumesIff(vs: seq<Visit>, i: nat, s: Snapshot)
    requires Trace(vs) && i < |vs| && CheckpointOf(s, vs, i)
    ensures Resume(s).Some? <==> vs[i].Node() != Finalize
    ensures vs[i].Node() != Finalize ==>
              && (DispatchTo(Resume(s).value) == vs[i].Live() <==> vs[i].Faithful())
              && (vs[i].Checkpoints() ==> DispatchTo(Resume(s).value) == vs[i].Node())
              && (vs[i].Recorded() == [] && vs[i].Node() != Intake && vs[i].Node() != Classify ==>
                    DispatchTo(Resume(s).value) in FallsBackTo(vs[i].Node()))
  {
    var v := vs[i];
    assert v.Possible();
    ResumeRefusedIff(s);
    if v.Node() != Finalize {
      LastDecisionOnEveryTrace(vs, i);
      NotTerminal(v);
      hide Scheduler.Progression;
      if v.Recorded() != [] {
        RecordedAgreesIff(v);
      } else if v.Node() == Intake || v.Node() == Classify {
        assert v == Plain(v.Node());
      } else {
        FallbackIsNeverAhead(v);
      }
    }
  }

  /** After planning, after a review that did not pass, found deliverables missing or progression blocked,
      after a QA review that did not pass or found gaps, and after an acceptance that goes back or was not
      accepted, a run resumes at that same stage; these and the repair are all the strategy checkpoints
      there are. */
  lemma ResumesWhereItFailed(vs: seq<Visit>, i: nat, s: Snapshot)
    requires Trace(vs) && i < |vs| && CheckpointOf(s, vs, i) && vs[i].Node() != Finalize
    ensures var v := vs[i];
            var again := match v {
              case AtPlan => true
              case AtReview(review, _, _, missing) =>
                review != ReviewPass || missing || (v.Progress().Some? && v.Progress().value.blocked)
              case AtQaReview(qa, _, gaps) => qa != Pipeline.QaPass || gaps
              case AtAcceptance(target, _, accepted) => target != LoopPolicy.ToContinue || !accepted
              case _ => false
            };
            && (again ==> Resume(s) == Some(Stage(v.Node())))
            && (!again && v.Recorded() != [] ==> Resume(s).Some? && Resume(s).value == v.Own()[|v.Own()| - 1])
  {
    LastDecisionOnEveryTrace(vs, i);
    NotTerminal(vs[i]);
    hide Scheduler.Progression;
  }

  lemma NotTerminal(v: Visit)
    requires v.Node() != Finalize && v.Possible()
    ensures !StatusAfter(v.Node()).Terminal?
  {
  }

  lemma PublishFollowsAcceptance(v: Visit)
    requires v.Possible() && v.Live() == Publish
    ensures v.AtAcceptance? && v.target.ToContinue?
    ensures LastOf(v.Recorded()) == Stage(if v.accepted then Publish else Acceptance)
  {
    hide Scheduler.Progression;
  }

  /** A run interrupted right after publishing publishes again exactly when the acceptance before it
      was accepted outright; after an acceptance short of the publish obligation it goes back to
      acceptance. */
  lemma InterruptedPublishIsRepeatedIff(vs: seq<Visit>, i: nat, s: Snapshot)
    requires Trace(vs) && 0 < i < |vs| && vs[i].Node() == Publish && CheckpointOf(s, vs, i)
    ensures vs[i - 1].AtAcceptance? && Resume(s).Some?
    ensures DispatchTo(Resume(s).value) == if vs[i - 1].accepted then Publish else Acceptance
  {
    var v, w := vs[i - 1], vs[i];
    assert w.Node() == v.Live() && v.Possible() && w.Possible();
    PublishFollowsAcceptance(v);
    assert w == Plain(Publish);
    LastDecisionOnEveryTrace(vs, i - 1);
    assert Written(vs, i) == Written(vs, i - 1);
  }

  /** A resume right after a re-entry is rejected: the checkpoint sends it back to the stage that
      asked for the re-entry, which no longer finds the fields it requires. */
  lemma ResumeAfterReentryIsRejected(v: Visit, p: Point, q: Point)
    requires v.Possible() && v.Checkpoints() && MayReenter(v.Node()) && LoopTarget(v.Live())
    requires Goes(p, q) && p.node == v.Node() && q.node == v.Live()
    ensures !(Required(DispatchTo(LastOf(v.Recorded()))) <= q.present)
  {
    RecordedAgreesIff(v);
    var f := if v.Node() == QaReview then PlanField else AcceptanceContract;
    assert f in Required(v.Node());
    assert Clears(q.node, f);
    assert f !in q.present;
  }
}
