/** Over whole runs of the workflow: when the execute stage works on a packet whose dependencies are
    done, and how a run comes to work on one too early. */
module PipelineDependencies {
  import opened Prelude
  import opened Topology
  import opened Packets
  import opened Scheduler
  import opened Pipeline
  import Acceptance
  import DependencySafety
  import Evaluation
  import Lifecycle
  import LoopPolicy
  import PlannedRuns
  import Planner
  import Report
  import ScheduleRuns
  import Text

  /** Every plan `build_plan` makes has the shape the state machine starts from. */
  lemma BuiltPlansArePlanned(brief: Planner.Brief, complexity: Complexity, f: Planner.Flags)
    requires Planner.Complete(brief.wording) && !Text.Blank(brief.goal)
    ensures IsPlanned(PlannedRuns.PlanOf(brief, complexity, f))
  {
    Planner.PlannedIsReadyToRun(brief, complexity, f);
    PlannedRuns.PlannedRepairsComeFirst(brief, complexity, f);
    hide Planner.PlannedWork, Planner.Complete, Text.Blank, ScheduleRuns.RepairsFirst, ScheduleRuns.Chain;
  }

  // ----- what the execute stage finds -----

  /** The packet the stage is about to work on has all its dependencies completed or skipped. */
  ghost predicate Safe(s: State) {
    s.node == Execute && s.packets.Some? ==>
      DependencySafety.SelectedIsDone(DependencySafety.State(s.packets.value, s.active), s.strategy)
  }

  /** ... or the selector says so itself. The stage does not look at this flag. */
  predicate Ready(s: State) {
    s.node == Execute && s.packets.Some? ==>
      var sel := Select(s.packets.value, s.strategy);
      sel.selected.Some? ==> sel.ready
  }

  /** There is pending work, but behind a packet that is blocked, or failed and not up for repair. */
  predicate Waiting(s: State) {
    && s.node == Execute && AnyPacket(s, Pending)
    && (AnyPacket(s, Blocked) || (AnyPacket(s, Failed) && !UnderRepairOnly(s)))
  }

  /** The two ways a review strands a run: its strategy checkpoint leaves repair_only after progression
      picked a failed packet, or it retries an agent failure while a packet is blocked and none is
      active. */
  predicate Strands(s: State, s': State) {
    && s.node == Review && s'.node == Execute && AnyPacket(s', Pending)
    && if s'.retries == s.retries then UnderRepairOnly(s) && !UnderRepairOnly(s') && AnyPacket(s', Failed)
       else s.active.None? && AnyPacket(s', Blocked)
  }

  // ----- the order a planned chain is worked through -----

  /** The packets before `c` are completed, those after it untouched; `c` itself is pending, failed or
      blocked. */
  ghost predicate Stands(ps: seq<Packet>, c: nat) {
    && ps != [] && ScheduleRuns.Chain(ps) && ScheduleRuns.RepairsFirst(ps) && ScheduleRuns.UpTo(ps, c)
    && (c < |ps| ==> ps[c].status.Pending? || ps[c].status.Failed? || ps[c].status.Blocked?)
  }

  /** The active packet is the current one, or the one completed just before a pending one; without
      an active packet nothing is pending, unless the current packet is blocked. */
  ghost predicate Current(ps: seq<Packet>, active: Option<string>, c: nat)
    requires c <= |ps|
  {
    if active.None? then
      (c < |ps| && ps[c].status.Blocked?) || forall k :: 0 <= k < |ps| ==> !ps[k].status.Pending?
    else
      || (c < |ps| && active.value == ps[c].id)
      || (c > 0 && active.value == ps[c - 1].id && (c < |ps| ==> ps[c].status.Pending?))
  }

  ghost predicate Standing(p: Packets.Plan, active: Option<string>) {
    exists c: nat :: Stands(p.packets, c) && Current(p.packets, active, c)
  }

  predicate Starting(n: Node) { n in {Policy, Approval, WorkspacePrepare} }

  predicate Working(n: Node) {
    n in {Execute, Review, Node.Repair, QaPlan, QaExecute, QaReview, Node.Acceptance, Publish, PostPublishVerify}
  }

  ghost predicate InOrder(s: State) {
    && (Starting(s.node) ==> s.packets.Some? && Untouched(s.packets.value, s.active))
    && (Working(s.node) ==> s.packets.Some? && Standing(s.packets.value, s.active))
  }

  ghost predicate Untouched(p: Packets.Plan, active: Option<string>) {
    IsPlanned(p) && active == Some(p.packets[0].id)
  }

  lemma UntouchedStands(p: Packets.Plan, active: Option<string>)
    requires Untouched(p, active)
    ensures Standing(p, active)
  {
    assert Stands(p.packets, 0) && Current(p.packets, active, 0);
  }

  /** The first packet of a fresh chain is selected under every strategy. */
  lemma FirstIsSelected(p: Packets.Plan, strategy: Option<Strategy>)
    requires IsPlanned(p)
    ensures Untouched(p, Select(p, strategy).selected)
  {
    var ps := p.packets;
    assert IsPending(ps[0]);
    assert FirstIndex(ps, IsPendingRepair) == 0 || FirstIndex(ps, IsPendingRepair) == |ps|;
    assert FirstIndex(ps, IsFailed) == |ps|;
  }

  /** What is selected while the chain stands at `c`. */
  lemma SelectsCurrent(p: Packets.Plan, strategy: Option<Strategy>, c: nat)
    requires Stands(p.packets, c)
    ensures var sel, ps := Select(p, strategy), p.packets;
            && (sel.ready ==>
                  c < |ps| && sel.selected == Some(ps[c].id) && DependencySafety.DependenciesDone(ps[c], ps))
            && (sel.selected.Some? && !sel.ready ==>
                  c + 1 < |ps| && sel.selected == Some(ps[c + 1].id) && !ps[c].status.Pending?
                  && !DependencySafety.DependenciesDone(ps[c + 1], ps))
            && (sel.ready <==> c < |ps| && (ps[c].status.Pending?
                                           || (ps[c].status.Failed? && Effective(strategy, p).RepairOnly?)))
            && (sel.selected.None? ==> c == |ps| || (c + 1 == |ps| && !ps[c].status.Pending?))
  {
    var ps := p.packets;
    var repair, failed, pending :=
      FirstIndex(ps, IsPendingRepair), FirstIndex(ps, IsFailed), FirstIndex(ps, IsPending);
    assert c < |ps| ==> (IsPending(ps[c]) || IsFailed(ps[c]) || IsBlocked(ps[c]));
    assert c + 1 < |ps| ==> IsPending(ps[c + 1]);
    assert repair < |ps| ==> repair == 0 && c == 0;
    assert failed < |ps| ==> failed == c;
    assert pending < |ps| ==> pending == if IsPending(ps[c]) then c else c + 1;
    if c < |ps| {
      ScheduleRuns.UpToIsReady(ps, c);
      DependencySafety.DepsReadyMeansDone(ps[c], ps);
    }
    if c + 1 < |ps| && !ps[c].status.Pending? {
      NextIsNotDone(ps, c);
      DependencySafety.DepsReadyMeansDone(ps[c + 1], ps);
    }
  }

  lemma NextIsNotDone(ps: seq<Packet>, c: nat)
    requires Stands(ps, c) && c + 1 < |ps|
    ensures !DependencySafety.DependenciesDone(ps[c + 1], ps)
  {
    assert ps[c + 1].dependencies == [ps[c].id];
    assert ps[c].id in ps[c + 1].dependencies;
  }

  // ----- at the execute stage -----

  /** While the work is in order: the stage works on a packet whose dependencies are done exactly when
      the selector calls it ready, and exactly when the run is not waiting behind another packet. */
  lemma SafeIffReadyIffNotWaiting(s: State)
    requires InOrder(s) && s.node == Execute
    ensures Safe(s) <==> Ready(s)
    ensures Ready(s) <==> !Waiting(s)
  {
    hide Select, DependencySafety.DependenciesDone, ScheduleRuns.Chain, ScheduleRuns.RepairsFirst;
    var p := s.packets.value;
    var ps := p.packets;
    var c: nat :| Stands(ps, c) && Current(ps, s.active, c);
    SelectsCurrent(p, s.strategy, c);
    SelectionIsUnique(p, s.strategy, c);
    assert c < |ps| ==> (AnyPacket(s, Blocked) <==> ps[c].status.Blocked?);
    assert c < |ps| ==> (AnyPacket(s, Failed) <==> ps[c].status.Failed?);
    assert AnyPacket(s, Pending) <==> (c < |ps| && ps[c].status.Pending?) || c + 1 < |ps| by {
      if c + 1 < |ps| { assert ps[c + 1].status.Pending?; }
    }
  }

  lemma SelectionIsUnique(p: Packets.Plan, strategy: Option<Strategy>, c: nat)
    requires Stands(p.packets, c)
    ensures var ps := p.packets;
            forall k :: 0 <= k < |ps| ==>
              && (c < |ps| && ps[k].id == ps[c].id ==> k == c)
              && (c + 1 < |ps| && ps[k].id == ps[c + 1].id ==> k == c + 1)
  {
  }

  /** Executing, retrying or repairing the active packet keeps the chain in order. */
  lemma SettingKeepsStanding(p: Packets.Plan, active: Option<string>, status: PacketStatus)
    requires Standing(p, active) && (status.Pending? || Settled(status))
    ensures Standing(SetStatus(p, active, status), active)
  {
    var ps := p.packets;
    var c: nat :| Stands(ps, c) && Current(ps, active, c);
    if active.Some? {
      var j := if c < |ps| && active.value == ps[c].id then c else c - 1;
      assert ps[j].id == active.value;
      assert ScheduleRuns.UpTo(ps, j);
      ScheduleRuns.ExecutingKeepsChain(ps, j, status);
      var ps' := SetStatus(p, active, status).packets;
      var c' := if status.Completed? then j + 1 else j;
      hide ScheduleRuns.Chain, ScheduleRuns.RepairsFirst, SetStatus;
      assert ps'[j].id == active.value;
      assert Stands(ps', c') && Current(ps', active, c');
    }
  }

  /** So does executing the selected packet, as long as the run is not waiting. */
  lemma ExecutingKeepsStanding(s: State, status: PacketStatus)
    requires InOrder(s) && s.node == Execute && !Waiting(s) && Settled(status)
    ensures var id := Select(s.packets.value, s.strategy).selected;
            Standing(SetStatus(s.packets.value, id, status), id)
  {
    SafeIffReadyIffNotWaiting(s);
    hide Select, ScheduleRuns.Chain, ScheduleRuns.RepairsFirst, SetStatus, DependencySafety.DependenciesDone;
    var p := s.packets.value;
    var c: nat :| Stands(p.packets, c) && Current(p.packets, s.active, c);
    SelectsCurrent(p, s.strategy, c);
    assert Current(p.packets, Select(p, s.strategy).selected, c);
    SettingKeepsStanding(p, Select(p, s.strategy).selected, status);
  }

  lemma ExecutionStaysInOrder(c: Setting, s: State, s': State)
    requires InOrder(s) && Executes(s, s') && !Waiting(s)
    ensures InOrder(s')
  {
    hide Select, SetStatus, KindOf, Leaves, Standing, Waiting;
    var status :|
      && var id := Select(s.packets.value, s.strategy).selected;
         Leaves(s'.execution.value, KindOf(s.packets.value, id), status) &&
         s' == s.(node := Review, execution := s'.execution, active := id,
                  packets := Some(SetStatus(s.packets.value, id, status)));
    LeavesSettled(s'.execution.value, KindOf(s.packets.value, Select(s.packets.value, s.strategy).selected), status);
    ExecutingKeepsStanding(s, status);
  }

  lemma RepairStaysInOrder(c: Setting, s: State, s': State)
    requires InOrder(s) && Repairs(s, s')
    ensures InOrder(s')
  {
    hide SetStatus, Leaves, Standing;
    var status :| Leaves(s'.execution.value, Packets.Verification, status)
      && s' == s.(node := Review, strategy := s'.strategy, execution := s'.execution, repairs := s.repairs + 1,
                  verification := None, publish := None, acceptance := None,
                  packets := if s.packets.Some? then Some(SetStatus(s.packets.value, s.active, status)) else None);
    LeavesSettled(s'.execution.value, Packets.Verification, status);
    SettingKeepsStanding(s.packets.value, s.active, status);
  }

  // ----- review -----

  /** What progression leaves behind: the current packet when it is to be executed, otherwise nothing
      active, and then nothing is pending that is not behind a blocked packet, or the run ends. */
  lemma ProgressionStaysInOrder(p: Packets.Plan, strategy: Option<Strategy>, c: nat)
    requires Stands(p.packets, c)
    ensures var next, ps := Progression(p, strategy), p.packets;
            && (next.nextStage.ToExecute? ==>
                  c < |ps| && next.nextPacket == Some(ps[c].id)
                  && (ps[c].status.Pending? || (ps[c].status.Failed? && Effective(strategy, p).RepairOnly?)))
            && (!next.nextStage.ToExecute? && !next.nextStage.ToFinalize? ==> Current(ps, None, c))
  {
    SelectsCurrent(p, strategy, c);
    hide Select, ScheduleRuns.Chain, ScheduleRuns.RepairsFirst, RepairPacketSelected, DependencySafety.DependenciesDone;
    var ps := p.packets;
    var failed, blocked := FirstIndex(ps, IsFailed), FirstIndex(ps, IsBlocked);
    assert c < |ps| && IsFailed(ps[c]) ==> failed < |ps|;
    assert PlanCompleted(p) ==> forall k :: 0 <= k < |ps| ==> !ps[k].status.Pending?;
  }

  lemma RetryWaitsIff(s: State, s': State)
    requires InOrder(s) && s.node == Review && s'.node == Execute && s'.retries > s.retries
    requires s'.packets == Some(SetStatus(s.packets.value, s.active, Pending))
    ensures Waiting(s') <==> Strands(s, s')
  {
    hide ScheduleRuns.Chain, ScheduleRuns.RepairsFirst, Effective, SetStatus;
    var p, p' := s.packets.value, s'.packets.value;
    if s.active.Some? {
      SettingKeepsStanding(p, s.active, Pending);
      PutBack(p, s.active.value);
      var c: nat :| Stands(p'.packets, c) && Current(p'.packets, s.active, c);
    } else {
      assert p' == p by { NothingToSet(p); }
    }
  }

  lemma PutBack(p: Packets.Plan, id: string)
    ensures var ps := SetStatus(p, Some(id), Pending).packets;
            forall k :: 0 <= k < |ps| && ps[k].id == id ==> ps[k].status.Pending?
  {
  }

  lemma NothingToSet(p: Packets.Plan)
    ensures SetStatus(p, None, Pending) == p
  {
  }

  lemma ProgressionWaitsIff(s: State, s': State)
    requires InOrder(s) && s.node == Review && s'.node == Execute && s'.retries == s.retries && s'.packets == s.packets
    requires Progression(s.packets.value, s.strategy).nextStage.ToExecute?
    requires s'.active == Progression(s.packets.value, s.strategy).nextPacket
    ensures InOrder(s')
    ensures Waiting(s') <==> Strands(s, s')
  {
    hide ScheduleRuns.Chain, ScheduleRuns.RepairsFirst, Effective, Progression;
    var p := s.packets.value;
    var c: nat :| Stands(p.packets, c) && Current(p.packets, s.active, c);
    ProgressionStaysInOrder(p, s.strategy, c);
    assert Current(p.packets, s'.active, c);
  }

  lemma QaStaysInOrder(s: State, s': State)
    requires InOrder(s) && s.node == Review && s'.node == QaPlan && s'.packets == s.packets && s'.active == None
    requires AfterProgression(Progression(s.packets.value, s.strategy).nextStage) == QaPlan
    ensures InOrder(s')
  {
    hide ScheduleRuns.Chain, ScheduleRuns.RepairsFirst, Progression;
    var p := s.packets.value;
    var c: nat :| Stands(p.packets, c) && Current(p.packets, s.active, c);
    ProgressionStaysInOrder(p, s.strategy, c);
  }

  /** A review keeps the work in order, and the run waits afterwards exactly if this review strands it. */
  lemma ReviewStaysInOrder(c: Setting, s: State, s': State, marked: bool)
    requires InOrder(s) && s.node == Review && s.plan.Some? && s.execution.Some? && Reviews(c, s, s', marked)
    ensures InOrder(s')
    ensures Waiting(s') <==> Strands(s, s')
  {
    hide Progression, SetStatus, ExecutionReview, Repairable, Report.AcceptanceFromViolation, Standing;
    var p := s.packets.value;
    if RetryDecision(c, s).allowed {
      SettingKeepsStanding(p, s.active, Pending);
      RetryWaitsIff(s, s');
    } else if s'.node == Execute {
      hide RetryDecision;
      ProgressionWaitsIff(s, s');
    } else {
      hide RetryDecision;
      if s'.node == QaPlan { QaStaysInOrder(s, s'); }
    }
  }

  // ----- all other stages -----

  lemma PlanningStaysInOrder(c: Setting, s: State, s': State)
    requires InOrder(s) && (Passes(s, s') || DoesResearch(s, s') || DerivesObligations(s, s') || Plans(c, s, s'))
    ensures InOrder(s') && !Waiting(s')
  {
    hide Acceptance.IsContractFor, Select, Standing, UnderRepairOnly, IsPlanned;
    if s.node == Node.Plan {
      FirstIsSelected(s'.packets.value, s'.strategy);
    } else if s.node == WorkspacePrepare {
      UntouchedStands(s.packets.value, s.active);
      NothingTouched(s');
    }
  }

  lemma NothingTouched(s: State)
    requires s.packets.Some? && Untouched(s.packets.value, s.active)
    ensures !AnyPacket(s, Blocked) && !AnyPacket(s, Failed)
  {
  }

  lemma SameWorkStaysInOrder(s: State, s': State)
    requires InOrder(s) && Working(s.node) && !Starting(s'.node) && s'.node != Execute
    requires Working(s'.node) ==> s'.packets == s.packets && s'.active == s.active
    ensures InOrder(s') && !Waiting(s')
  {
    hide Standing;
  }

  lemma QaReviewStaysInOrder(c: Setting, s: State, s': State, qa: QaVerdict, d: LoopPolicy.Decision)
    requires InOrder(s) && s.node == QaReview && s.plan.Some? && ReviewsQa(c, s, s', qa, d)
    ensures InOrder(s') && !Waiting(s')
  {
    hide Asked, InOrder, Waiting;
    if !qa.QaFailCode? {
      ReentriesAreWired(c, s.(verification := s'.verification).(publish := None), "verify", d);
    }
    SameWorkStaysInOrder(s, s');
  }

  lemma AcceptanceStaysInOrder(c: Setting, s: State, s': State, named: Acceptance.Obligation -> bool,
                               d: LoopPolicy.Decision)
    requires InOrder(s) && s.node == Node.Acceptance && s.plan.Some? && s.contract.Some? && Accepts(c, s, s', named, d)
    ensures InOrder(s') && !Waiting(s')
  {
    hide Asked, InOrder, Waiting, Evaluation.Evaluates, Lifecycle.FactsFor, Lifecycle.AfterAcceptance;
    ReentriesAreWired(c, s, "acceptance", d);
    SameWorkStaysInOrder(s, s');
  }

  lemma PublicationStaysInOrder(c: Setting, s: State, s': State, named: Acceptance.Obligation -> bool)
    requires InOrder(s)
    requires Publishes(s, s') || (s.node == PostPublishVerify && s.plan.Some? && ReviewsPublish(c, s, s', named))
    ensures InOrder(s') && !Waiting(s')
  {
    hide InOrder, Waiting, Evaluation.Evaluates, PublishReview;
    SameWorkStaysInOrder(s, s');
  }

  lemma StepStaysInOrder(c: Setting, s: State, s': State)
    requires InOrder(s) && Step(c, s, s') && !Waiting(s)
    ensures InOrder(s')
    ensures Waiting(s') <==> Strands(s, s')
  {
    hide InOrder, Reviews, ReviewsQa, Accepts, ReviewsPublish, Passes, DoesResearch, DerivesObligations, Plans,
         Executes, Repairs, Publishes, AnyPacket, UnderRepairOnly;
    match s.node
    case Review =>
      var marked :| Reviews(c, s, s', marked);
      ReviewStaysInOrder(c, s, s', marked);
    case Execute =>
      ExecutionStaysInOrder(c, s, s');
      StepsAreWired(c, s, s');
    case Repair =>
      RepairStaysInOrder(c, s, s');
      StepsAreWired(c, s, s');
    case QaReview =>
      var qa, d :| ReviewsQa(c, s, s', qa, d);
      QaReviewStaysInOrder(c, s, s', qa, d);
    case Acceptance =>
      var named, d :| Accepts(c, s, s', named, d);
      AcceptanceStaysInOrder(c, s, s', named, d);
    case Publish => PublicationStaysInOrder(c, s, s', o => true);
    case PostPublishVerify =>
      var named :| ReviewsPublish(c, s, s', named);
      PublicationStaysInOrder(c, s, s', named);
    case _ => PlanningStaysInOrder(c, s, s');
  }

  // ----- whole runs -----

  ghost predicate SafeUpTo(ss: seq<State>, n: nat) { forall i :: 0 <= i < n && i < |ss| ==> Safe(ss[i]) }

  ghost predicate ReadyUpTo(ss: seq<State>, n: nat) { forall i :: 0 <= i < n && i < |ss| ==> Ready(ss[i]) }

  ghost predicate StrandsNowhere(ss: seq<State>, n: nat) {
    forall i, j :: 0 <= i && j == i + 1 < n && j < |ss| ==> !Strands(ss[i], ss[j])
  }

  /** Every run: all executions so far worked on packets whose dependencies were done, if and only if
      all of them worked on packets the selector called ready, if and only if no review stranded the
      run. Nothing else a run does - re-planning, repairs, retries, re-entries, switching the strategy
      at any other point - makes a packet run too early. */
  lemma {:induction false} ExecutionsAreSafeIff(c: Setting, ss: seq<State>, n: nat)
    requires Run(c, ss) && 0 < n <= |ss|
    ensures SafeUpTo(ss, n) <==> ReadyUpTo(ss, n)
    ensures SafeUpTo(ss, n) <==> StrandsNowhere(ss, n)
    ensures SafeUpTo(ss, n) ==> InOrder(ss[n - 1])
  {
    hide Step, Safe, Ready, Waiting, Strands, InOrder;
    var i := n - 1;
    if i == 0 {
      StartIsInOrder(ss[0]);
    } else {
      ExecutionsAreSafeIff(c, ss, i);
      if SafeUpTo(ss, i) {
        assert Step(c, ss[i - 1], ss[i]);
        OnlyExecutionsWait(ss[i - 1]);
        StepStaysInOrder(c, ss[i - 1], ss[i]);
        OnlyExecutionsWait(ss[i]);
      }
      assert SafeUpTo(ss, n) <==> SafeUpTo(ss, i) && Safe(ss[i]);
      assert ReadyUpTo(ss, n) <==> ReadyUpTo(ss, i) && Ready(ss[i]);
      assert StrandsNowhere(ss, n) <==> StrandsNowhere(ss, i) && !Strands(ss[i - 1], ss[i]);
    }
  }

  lemma StartIsInOrder(s: State)
    requires s == Start(s.strategy)
    ensures InOrder(s) && Safe(s) && Ready(s)
  {
  }

  lemma OnlyExecutionsWait(s: State)
    requires InOrder(s)
    ensures Safe(s) <==> !Waiting(s)
    ensures Ready(s) <==> !Waiting(s)
  {
    if s.node == Execute { SafeIffReadyIffNotWaiting(s); }
  }
}
