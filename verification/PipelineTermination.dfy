/** How long a run can be: a bound in the number of steps no budget guards, and the budgets that
    hold in every run. */
module PipelineTermination {
  import opened Prelude
  import opened Topology
  import opened Acceptance
  import opened Evaluation
  import opened Pipeline
  import Lifecycle
  import LoopPolicy
  import Packets
  import PipelineSafety
  import ScheduleRuns
  import Scheduler

  // ----- pending packets -----

  function PendingOf(ps: seq<Packets.Packet>): (n: nat)
    ensures n <= |ps|
  {
    if ps == [] then 0 else PendingOf(ps[..|ps| - 1]) + if ps[|ps| - 1].status.Pending? then 1 else 0
  }

  lemma {:induction false} UnknownIdChangesNothing(ps: seq<Packets.Packet>, id: string, status: Packets.PacketStatus)
    requires forall k :: 0 <= k < |ps| ==> ps[k].id != id
    ensures Scheduler.WithStatus(ps, id, status) == ps
  {
  }

  /** A status change concerns one packet at most. */
  lemma {:induction false} PendingAfter(ps: seq<Packets.Packet>, id: string, status: Packets.PacketStatus)
    requires Packets.DistinctIds(ps)
    ensures var n, n' := PendingOf(ps), PendingOf(Scheduler.WithStatus(ps, id, status));
            && n' <= n + 1 && (!status.Pending? ==> n' <= n)
            && (!status.Pending? ==>
                  forall k :: 0 <= k < |ps| && ps[k].id == id && ps[k].status.Pending? ==> n' == n - 1)
  {
    if ps != [] {
      var front, last := ps[..|ps| - 1], ps[|ps| - 1];
      var ps' := Scheduler.WithStatus(ps, id, status);
      assert ps'[..|ps| - 1] == Scheduler.WithStatus(front, id, status);
      assert PendingOf(ps') == PendingOf(ps'[..|ps| - 1]) + One(ps'[|ps| - 1].status.Pending?);
      assert PendingOf(ps) == PendingOf(front) + One(last.status.Pending?);
      hide PendingOf, Scheduler.WithStatus;
      if last.id == id {
        UnknownIdChangesNothing(front, id, status);
      } else {
        PendingAfter(front, id, status);
        assert forall k :: 0 <= k < |ps| && ps[k].id == id ==> k < |front| && front[k] == ps[k];
      }
    }
  }

  function Pending(s: State): nat {
    if s.packets.Some? then PendingOf(s.packets.value.packets) else 5
  }

  // ----- the measure -----

  /** Order of the stages along the forward edges. */
  function Rank(n: Node): nat {
    match n
    case Dispatch => 23
    case Intake => 22
    case Classify => 21
    case Route => 20
    case Research => 19
    case Observe => 18
    case BuildContext => 17
    case Obligations => 16
    case DoneContract => 15
    case Plan => 14
    case Policy => 13
    case Approval => 12
    case WorkspacePrepare => 11
    case Execute => 10
    case Repair => 9
    case Review => 8
    case QaPlan => 7
    case QaExecute => 6
    case QaReview => 5
    case Acceptance => 4
    case Publish => 3
    case PostPublishVerify => 2
    case Finalize => 1
    case End => 0
  }

  function Left(limit: int, used: int): nat {
    if used < limit then limit - used else 0
  }

  function One(b: bool): nat { if b then 1 else 0 }

  predicate PendingSelected(p: Packets.Plan, strategy: Option<Packets.Strategy>) {
    exists k :: 0 <= k < |p.packets| && p.packets[k].status.Pending?
                && Scheduler.Select(p, strategy).selected == Some(p.packets[k].id)
  }

  /** The execution that comes next works on a pending packet. */
  predicate Spends(s: State) {
    s.node == Execute && (s.packets.Some? ==> PendingSelected(s.packets.value, s.strategy))
  }

  /** Re-entries left, then repairs, retries, the way back to research and pending packets, then the
      rank. Entering repair or research, and the packet an execution is about to use up, are charged
      on the edge that leads there. */
  function Measure(c: Setting, s: State): int {
    144 * Left(LoopPolicy.DEFAULT_BUDGET.globally, |s.history|)
    + 24 * (Left(MAX_REPAIRS, s.repairs + One(s.node == Repair))
            + 2 * Left(c.RetryBudget(), s.retries)
            + One(!s.researched && s.node != Research)
            + Pending(s) - One(Spends(s)))
    + Rank(s.node)
  }

  ghost predicate PacketsKept(s: State) {
    && (PipelineSafety.Planning(s.node) ==> s.packets.None?)
    && (s.packets.Some? ==> Packets.DistinctIds(s.packets.value.packets) && |s.packets.value.packets| <= 5)
  }

  /** A repair that review or QA review chooses, without asking for the repair budget. */
  predicate ChosenRepair(s: State, s': State) {
    (s.node == Review || s.node == QaReview) && s'.node == Repair
  }

  /** Progression sends the run back to execute under repair_only while some packet is failed. */
  predicate FailedAgain(s: State, s': State) {
    && s.node == Review && s'.node == Execute && s'.retries == s.retries
    && AnyPacket(s', Packets.Failed) && (UnderRepairOnly(s) || UnderRepairOnly(s'))
  }

  /** The steps no budget guards. */
  predicate Unguarded(s: State, s': State) {
    ChosenRepair(s, s') || FailedAgain(s, s')
  }

  ghost predicate GoesDown(c: Setting, s: State, s': State) {
    PacketsKept(s') && Measure(c, s') < Measure(c, s) + 24 * One(Unguarded(s, s'))
  }

  lemma StatusChangeKeepsPackets(p: Packets.Plan, id: Option<string>, status: Packets.PacketStatus)
    requires Packets.DistinctIds(p.packets)
    ensures var p' := SetStatus(p, id, status);
            && Packets.DistinctIds(p'.packets) && |p'.packets| == |p.packets|
            && PendingOf(p'.packets) <= PendingOf(p.packets) + One(status.Pending?)
  {
    if id.Some? { PendingAfter(p.packets, id.value, status); }
  }

  lemma FreshPlansArePending(p: Packets.Plan, strategy: Option<Packets.Strategy>)
    requires IsPlanned(p)
    ensures Packets.DistinctIds(p.packets) && PendingOf(p.packets) <= 5 && PendingSelected(p, strategy)
  {
    assert p.packets[0].status.Pending?;
    PendingIsSelected(p, strategy, 0);
  }

  /** Unless repair_only prefers a failed packet, a pending packet is selected if there is one. */
  lemma PendingIsSelected(p: Packets.Plan, strategy: Option<Packets.Strategy>, k: nat)
    requires k < |p.packets| && p.packets[k].status.Pending?
    requires Scheduler.Effective(strategy, p).RepairOnly? ==>
               forall i :: 0 <= i < |p.packets| ==> !p.packets[i].status.Failed?
    ensures PendingSelected(p, strategy)
  {
    var ps := p.packets;
    var repair, failed, pending := Scheduler.FirstIndex(ps, Scheduler.IsPendingRepair),
                                   Scheduler.FirstIndex(ps, Scheduler.IsFailed),
                                   Scheduler.FirstIndex(ps, Scheduler.IsPending);
    assert Scheduler.IsPending(ps[k]);
    assert Scheduler.Effective(strategy, p).RepairOnly? ==> failed == |ps|;
    var j := if Scheduler.Effective(strategy, p).RepairOnly? && repair < |ps| then repair else pending;
    assert ps[j].status.Pending? && Scheduler.Select(p, strategy).selected == Some(ps[j].id);
  }

  /** Progression only sends a run to execute for a pending packet, or under repair_only for a failed
      one. */
  lemma ExecutingNeedsWork(p: Packets.Plan, strategy: Option<Packets.Strategy>) returns (k: nat)
    requires Scheduler.Progression(p, strategy).nextStage.ToExecute?
    ensures k < |p.packets|
    ensures p.packets[k].status.Pending?
            || (p.packets[k].status.Failed? && Scheduler.Effective(strategy, p).RepairOnly?)
  {
    var ps := p.packets;
    var repair, failed, pending := Scheduler.FirstIndex(ps, Scheduler.IsPendingRepair),
                                   Scheduler.FirstIndex(ps, Scheduler.IsFailed),
                                   Scheduler.FirstIndex(ps, Scheduler.IsPending);
    assert Scheduler.Select(p, strategy).ready;
    k := if Scheduler.Effective(strategy, p).RepairOnly? && repair < |ps| then repair
         else if Scheduler.Effective(strategy, p).RepairOnly? && failed < |ps| then failed else pending;
  }

  /** Along the forward edges the rank falls; only observation may go back, to research. */
  lemma ForwardRank(s: State, s': State)
    requires Passes(s, s') && !(s.node == Observe && s'.node == Research)
    ensures Rank(s'.node) < Rank(s.node) && s'.node != Repair && s.node != Repair && s.node != Execute
    ensures s'.node == Research ==> s.node == Route
    ensures s.node != Research
    ensures PipelineSafety.Planning(s'.node) ==> PipelineSafety.Planning(s.node)
  {
  }

  lemma PassesGoesDown(c: Setting, s: State, s': State)
    requires PacketsKept(s) && Passes(s, s')
    ensures GoesDown(c, s, s')
  {
    hide PendingOf, Wired, Choices, Straight;
    if !(s.node == Observe && s'.node == Research) {
      ForwardRank(s, s');
      hide Rank;
    }
  }

  lemma SimpleStepsGoDown(c: Setting, s: State, s': State)
    requires PacketsKept(s) && (DoesResearch(s, s') || DerivesObligations(s, s') || Publishes(s, s'))
    ensures GoesDown(c, s, s')
  {
    hide PendingOf;
  }

  lemma PlanningGoesDown(c: Setting, s: State, s': State)
    requires PacketsKept(s) && Plans(c, s, s')
    ensures GoesDown(c, s, s')
  {
    hide IsContractFor, Scheduler.Select, ScheduleRuns.Chain, PendingOf;
  }

  /** An execution that works on a pending packet uses it up. */
  lemma SpendingPending(p: Packets.Plan, strategy: Option<Packets.Strategy>, status: Packets.PacketStatus)
    requires Packets.DistinctIds(p.packets) && PendingSelected(p, strategy) && Scheduler.Settled(status)
    ensures PendingOf(SetStatus(p, Scheduler.Select(p, strategy).selected, status).packets) == PendingOf(p.packets) - 1
  {
    var k :| 0 <= k < |p.packets| && p.packets[k].status.Pending?
             && Scheduler.Select(p, strategy).selected == Some(p.packets[k].id);
    PendingAfter(p.packets, p.packets[k].id, status);
  }

  lemma ExecutionGoesDown(c: Setting, s: State, s': State)
    requires PacketsKept(s) && Executes(s, s')
    ensures GoesDown(c, s, s') && (Spends(s) ==> Pending(s') < Pending(s))
  {
    hide Scheduler.Select, ScheduleRuns.Chain, PendingOf, SetStatus, PendingSelected, KindOf, Leaves, AnyPacket;
    var p: Packets.Plan, status :|
      && (if s.packets.Some? then p == s.packets.value else IsPlanned(p))
      && var id := Scheduler.Select(p, s.strategy).selected;
         Leaves(s'.execution.value, KindOf(p, id), status) &&
         s' == s.(node := Review, execution := s'.execution, active := id, packets := Some(SetStatus(p, id, status)));
    LeavesSettled(s'.execution.value, KindOf(p, Scheduler.Select(p, s.strategy).selected), status);
    StatusChangeKeepsPackets(p, Scheduler.Select(p, s.strategy).selected, status);
    if s.packets.None? { FreshPlansArePending(p, s.strategy); }
    if PendingSelected(p, s.strategy) { SpendingPending(p, s.strategy, status); }
  }

  lemma ReviewGoesDown(c: Setting, s: State, s': State, marked: bool)
    requires PacketsKept(s) && s.node == Review && s.plan.Some? && s.execution.Some? && Reviews(c, s, s', marked)
    ensures GoesDown(c, s, s')
  {
    hide Scheduler.Progression, PendingOf, SetStatus, ExecutionReview, Repairable, Report.AcceptanceFromViolation;
    if RetryDecision(c, s).allowed {
      RetryGoesDown(c, s, s');
    } else {
      hide RetryDecision;
      if s'.node == Execute && !FailedAgain(s, s') { ChosenAgainSpends(s, s'); }
      AfterReviewGoesDown(c, s, s');
    }
  }

  /** Sent back to execute by progression, and not for a failed packet under repair_only: the next
      execution works on a pending packet. */
  lemma ChosenAgainSpends(s: State, s': State)
    requires s.node == Review && s'.node == Execute && s'.retries == s.retries && s'.packets == s.packets
    requires s.packets.Some? && Scheduler.Progression(s.packets.value, s.strategy).nextStage.ToExecute?
    requires !FailedAgain(s, s')
    ensures Spends(s')
  {
    var p := s.packets.value;
    var k := ExecutingNeedsWork(p, s.strategy);
    hide Scheduler.Select, Scheduler.Progression, PendingSelected;
    assert p.packets[k].status.Pending?;
    PendingIsSelected(p, s'.strategy, k);
  }

  lemma RetryGoesDown(c: Setting, s: State, s': State)
    requires PacketsKept(s) && s.node == Review && s'.node == Execute && s.execution.Some?
    requires s'.retries == s.retries + 1 && s.retries < c.RetryBudget()
    requires s'.packets == if s.packets.Some? then Some(SetStatus(s.packets.value, s.active, Packets.Pending)) else None
    requires s'.history == s.history && s'.repairs == s.repairs && s'.researched == s.researched
    ensures GoesDown(c, s, s')
  {
    hide PendingOf, SetStatus;
    if s.packets.Some? {
      StatusChangeKeepsPackets(s.packets.value, s.active, Packets.Pending);
    }
  }

  /** Review without a retry: to an earlier stage only by spending a pending packet or unguarded. */
  lemma AfterReviewGoesDown(c: Setting, s: State, s': State)
    requires PacketsKept(s) && s.node == Review && s'.node in {Execute, Repair, QaPlan, Finalize}
    requires s'.retries == s.retries && s'.packets == s.packets
    requires s'.history == s.history && s'.repairs == s.repairs && s'.researched == s.researched
    requires s'.node == Execute ==> Spends(s') || FailedAgain(s, s')
    ensures GoesDown(c, s, s')
  {
    hide PendingOf, PendingSelected, AnyPacket;
  }

  lemma RepairGoesDown(c: Setting, s: State, s': State)
    requires PacketsKept(s) && Repairs(s, s')
    ensures GoesDown(c, s, s')
  {
    hide PendingOf, SetStatus;
    var status :| Leaves(s'.execution.value, Packets.Verification, status)
      && s' == s.(node := Review, strategy := s'.strategy, execution := s'.execution, repairs := s.repairs + 1,
                  verification := None, publish := None, acceptance := None,
                  packets := if s.packets.Some? then Some(SetStatus(s.packets.value, s.active, status)) else None);
    LeavesSettled(s'.execution.value, Packets.Verification, status);
    if s.packets.Some? {
      StatusChangeKeepsPackets(s.packets.value, s.active, status);
    }
  }

  /** Only an automatic decision leads back, and only while fewer than three are recorded. */
  lemma ReentryNeedsBudget(c: Setting, s: State, source: string, d: LoopPolicy.Decision)
    requires s.plan.Some? && Asked(c, s, source, d) && NodeOf(d.target).Some? && NodeOf(d.target) != Some(Finalize)
    ensures d.automatic && d.source == source && |s.history| < LoopPolicy.DEFAULT_BUDGET.globally
    ensures NodeOf(d.target).value in {Research, Observe, BuildContext, Node.Obligations, Plan}
  {
  }

  lemma ReentryGoesDown(c: Setting, s: State, d: LoopPolicy.Decision)
    requires PacketsKept(s) && (s.node == QaReview || s.node == Node.Acceptance) && NodeOf(d.target).Some?
    requires NodeOf(d.target) != Some(Finalize) ==>
               |s.history| < LoopPolicy.DEFAULT_BUDGET.globally
               && NodeOf(d.target).value in {Research, Observe, BuildContext, Node.Obligations, Plan}
    ensures GoesDown(c, s, Reenters(s, d))
  {
    hide PendingOf;
  }

  lemma ForwardGoesDown(c: Setting, s: State, s': State)
    requires PacketsKept(s) && !PipelineSafety.Planning(s.node) && !PipelineSafety.Planning(s'.node)
    requires s.node !in {Execute, Repair} && s'.node !in {Execute, Repair} && Rank(s'.node) < Rank(s.node)
    requires s'.packets == s.packets && s'.researched == s.researched && s'.repairs == s.repairs
    requires s'.retries == s.retries && |s'.history| >= |s.history|
    ensures GoesDown(c, s, s')
  {
    hide PendingOf;
  }

  lemma ReentersAt(s: State, d: LoopPolicy.Decision)
    requires NodeOf(d.target).Some?
    ensures Reenters(s, d).node == NodeOf(d.target).value
  {
  }

  lemma QaReviewGoesDown(c: Setting, s: State, s': State, qa: QaVerdict, d: LoopPolicy.Decision)
    requires PacketsKept(s) && s.node == QaReview && s.plan.Some? && ReviewsQa(c, s, s', qa, d)
    ensures GoesDown(c, s, s')
  {
    hide PendingOf, Asked, Reenters, PacketsKept, GoesDown;
    var seen := s.(verification := s'.verification);
    if qa.QaFailCode? {
      RepairInsteadGoesDown(c, s, s');
    } else if NodeOf(d.target).Some? {
      if NodeOf(d.target) != Some(Finalize) { ReentryNeedsBudget(c, seen.(publish := None), "verify", d); }
      KeptAlike(s, seen);
      ReentryGoesDown(c, seen, d);
      ReentersAt(seen, d);
      SameMeasure(c, s, seen, Reenters(seen, d), s');
    } else {
      ForwardGoesDown(c, s, s');
    }
  }

  lemma RepairInsteadGoesDown(c: Setting, s: State, s': State)
    requires PacketsKept(s) && s.node == QaReview && s'.node == Repair
    requires s'.packets == s.packets && s'.researched == s.researched && s'.repairs == s.repairs
    requires s'.retries == s.retries && |s'.history| >= |s.history|
    ensures GoesDown(c, s, s')
  {
    hide PendingOf;
  }

  lemma AcceptanceGoesDown(c: Setting, s: State, s': State, named: Obligation -> bool, d: LoopPolicy.Decision)
    requires PacketsKept(s) && s.node == Node.Acceptance && s.plan.Some? && s.contract.Some?
    requires Accepts(c, s, s', named, d)
    ensures GoesDown(c, s, s')
  {
    hide PendingOf, Asked, Reenters, Evaluates, Lifecycle.AfterAcceptance, Lifecycle.FactsFor, PacketsKept, GoesDown;
    var decided := s.(acceptance := s'.acceptance,
                      verification := WithResults(s.verification, s'.acceptance.value.results));
    if NodeOf(d.target).Some? {
      if NodeOf(d.target) != Some(Finalize) { ReentryNeedsBudget(c, s, "acceptance", d); }
      KeptAlike(s, decided);
      ReentryGoesDown(c, decided, d);
      ReentersAt(decided, d);
      SameMeasure(c, s, decided, Reenters(decided, d), s');
    } else {
      ForwardGoesDown(c, s, s');
    }
  }

  lemma KeptAlike(s: State, t: State)
    requires PacketsKept(s) && t.node == s.node && t.packets == s.packets
    ensures PacketsKept(t)
  {
  }

  /** Only these fields enter the measure. */
  lemma SameMeasure(c: Setting, s: State, t: State, t': State, s': State)
    requires GoesDown(c, t, t') && t == s.(acceptance := t.acceptance, verification := t.verification)
    requires s' == t'.(strategy := s'.strategy) && s.node !in {Execute, Review} && s'.node != Execute
    ensures GoesDown(c, s, s')
  {
    hide PendingOf, Rank, Left, One, ScheduleRuns.Chain;
  }

  lemma PublishReviewGoesDown(c: Setting, s: State, s': State, named: Obligation -> bool)
    requires PacketsKept(s) && Lifecycle.AllowsNoMore(c.evaluate)
    requires s.node == PostPublishVerify && s.plan.Some? && ReviewsPublish(c, s, s', named)
    ensures GoesDown(c, s, s')
  {
    hide PendingOf, Evaluates, Lifecycle.AfterPublish, Lifecycle.AllowsNoMore;
    if PublishReview(c, s).next.NextRepair? {
      RepairAfterPublishNeedsBudget(c, s);
    }
  }

  lemma RepairAfterPublishNeedsBudget(c: Setting, s: State)
    requires Lifecycle.AllowsNoMore(c.evaluate) && s.plan.Some? && PublishReview(c, s).next.NextRepair?
    ensures s.repairs < MAX_REPAIRS
  {
    var f := Lifecycle.FactsFor(s.plan.value, Acceptance.Results(s.execution, None, s.publish), None, s.repairs, MAX_REPAIRS);
    hide Lifecycle.AfterPublish, Lifecycle.AllowsNoMore;
    Lifecycle.RepairUnderStricterPolicy(f, c.evaluate);
  }

  /** Every step lowers the measure, except that an unguarded one may raise it by 23. */
  lemma StepGoesDown(c: Setting, s: State, s': State)
    requires PacketsKept(s) && Step(c, s, s') && Lifecycle.AllowsNoMore(c.evaluate)
    ensures GoesDown(c, s, s')
  {
    hide GoesDown, PacketsKept, Reviews, ReviewsQa, Accepts, ReviewsPublish, Lifecycle.AllowsNoMore, Passes, DoesResearch,
         DerivesObligations, Publishes, Plans, Executes, Repairs;
    match s.node
    case Review =>
      var marked :| Reviews(c, s, s', marked);
      ReviewGoesDown(c, s, s', marked);
    case QaReview =>
      var qa, d :| ReviewsQa(c, s, s', qa, d);
      QaReviewGoesDown(c, s, s', qa, d);
    case Acceptance =>
      var named, d :| Accepts(c, s, s', named, d);
      AcceptanceGoesDown(c, s, s', named, d);
    case PostPublishVerify =>
      var named :| ReviewsPublish(c, s, s', named);
      PublishReviewGoesDown(c, s, s', named);
    case Plan => PlanningGoesDown(c, s, s');
    case Execute => ExecutionGoesDown(c, s, s');
    case Repair => RepairGoesDown(c, s, s');
    case Research | Obligations | Publish => SimpleStepsGoDown(c, s, s');
    case _ => PassesGoesDown(c, s, s');
  }

  // ----- how execute is entered -----

  ghost predicate StartsFresh(s: State) {
    s.node in {Policy, Approval, WorkspacePrepare} ==> s.packets.Some? && IsPlanned(s.packets.value)
  }

  /** For a pending packet, or by an allowed retry, or for a failed packet under repair_only. */
  predicate EntersExecute(s: State, s': State) {
    Spends(s') || s'.retries == s.retries + 1 || FailedAgain(s, s')
  }

  lemma ReviewEntersExecute(c: Setting, s: State, s': State, marked: bool)
    requires s.node == Review && s.plan.Some? && s.execution.Some? && Reviews(c, s, s', marked) && s'.node == Execute
    ensures EntersExecute(s, s')
  {
    hide Scheduler.Progression, SetStatus, ExecutionReview, Repairable, Spends, AnyPacket, UnderRepairOnly;
    if !RetryDecision(c, s).allowed && !FailedAgain(s, s') { ChosenAgainSpends(s, s'); }
  }

  lemma StepEntersExecute(c: Setting, s: State, s': State)
    requires Step(c, s, s') && StartsFresh(s)
    ensures StartsFresh(s')
    ensures s'.node == Execute ==> EntersExecute(s, s')
  {
    hide Reviews, ReviewsQa, Accepts, ReviewsPublish, Executes, Repairs, IsContractFor, IsPlanned, EntersExecute,
         Lifecycle.AllowsNoMore;
    StepsAreWired(c, s, s');
    if s.node == Review {
      var marked :| Reviews(c, s, s', marked);
      if s'.node == Execute { ReviewEntersExecute(c, s, s', marked); }
    } else if s'.node == Execute {
      FreshPlansArePending(s.packets.value, s.strategy);
      FreshIsSpent(s, s');
    }
  }

  lemma FreshIsSpent(s: State, s': State)
    requires s'.node == Execute && s'.packets == s.packets && s'.strategy == s.strategy
    requires s.packets.Some? && PendingSelected(s.packets.value, s.strategy)
    ensures EntersExecute(s, s')
  {
  }

  // ----- whole runs -----

  /** In every run the execute stage is only ever entered for a pending packet, by an allowed retry, or
      for a failed packet under repair_only. */
  lemma {:induction false} ExecuteIsEnteredFor(c: Setting, ss: seq<State>, i: nat)
    requires Run(c, ss) && 0 < i < |ss|
    ensures StartsFresh(ss[i])
    ensures ss[i].node == Execute ==> EntersExecute(ss[i - 1], ss[i])
  {
    hide Step, StartsFresh, EntersExecute;
    if i > 1 { ExecuteIsEnteredFor(c, ss, i - 1); } else { assert StartsFresh(ss[0]) by { IntakeStarts(ss[0]); } }
    StepEntersExecute(c, ss[i - 1], ss[i]);
  }

  lemma IntakeStarts(s: State)
    requires s == Start(s.strategy)
    ensures StartsFresh(s)
  {
  }

  function UnguardedSteps(ss: seq<State>): nat {
    if |ss| < 2 then 0
    else UnguardedSteps(ss[..|ss| - 1]) + One(Unguarded(ss[|ss| - 2], ss[|ss| - 1]))
  }

  lemma RunPrefix(c: Setting, ss: seq<State>)
    requires Run(c, ss) && |ss| >= 2
    ensures Run(c, ss[..|ss| - 1])
  {
    hide Step;
  }

  lemma {:induction false} MeasureAlongRun(c: Setting, ss: seq<State>)
    requires Run(c, ss) && Lifecycle.AllowsNoMore(c.evaluate)
    ensures PacketsKept(ss[|ss| - 1])
    ensures Measure(c, ss[|ss| - 1]) + |ss| - 1 <= Measure(c, ss[0]) + 24 * UnguardedSteps(ss)
  {
    hide Step, Measure, Unguarded, Lifecycle.AllowsNoMore;
    if |ss| >= 2 {
      var front := ss[..|ss| - 1];
      RunPrefix(c, ss);
      MeasureAlongRun(c, front);
      StepGoesDown(c, ss[|ss| - 2], ss[|ss| - 1]);
    }
  }

  lemma MeasureIsPositive(c: Setting, s: State)
    requires PacketsKept(s)
    ensures Measure(c, s) >= 0
  {
    if Spends(s) && s.packets.Some? {
      SpendingPending(s.packets.value, s.strategy, Packets.Completed);
    }
  }

  /** A run with U unguarded steps has at most 646 + 48 * (retry budget) + 24 * U steps in all,
      whatever the agents, the models and the verifiers answer. */
  lemma RunsAreBounded(c: Setting, ss: seq<State>)
    requires Run(c, ss) && Lifecycle.AllowsNoMore(c.evaluate)
    ensures |ss| - 1 <= 646 + 48 * Left(c.RetryBudget(), 0) + 24 * UnguardedSteps(ss)
  {
    MeasureAlongRun(c, ss);
    MeasureIsPositive(c, ss[|ss| - 1]);
    assert Measure(c, ss[0]) == 646 + 48 * Left(c.RetryBudget(), 0);
  }

  function ChosenRepairs(ss: seq<State>): nat {
    if |ss| < 2 then 0
    else ChosenRepairs(ss[..|ss| - 1]) + One(ChosenRepair(ss[|ss| - 2], ss[|ss| - 1]))
  }

  lemma {:induction false} OnlyRepairsAreUnguarded(ss: seq<State>)
    requires forall i :: 0 <= i < |ss| ==> !UnderRepairOnly(ss[i])
    ensures UnguardedSteps(ss) == ChosenRepairs(ss)
  {
    hide ChosenRepair, AnyPacket, UnderRepairOnly;
    if |ss| >= 2 {
      OnlyRepairsAreUnguarded(ss[..|ss| - 1]);
      assert !UnderRepairOnly(ss[|ss| - 2]) && !UnderRepairOnly(ss[|ss| - 1]);
    }
  }

  /** A run that is never under repair_only is bounded by the repairs that review and QA review
      choose alone; re-planning, retries and re-entries are covered by the constant. */
  lemma RunsOutsideRepairOnlyAreBounded(c: Setting, ss: seq<State>)
    requires Run(c, ss) && Lifecycle.AllowsNoMore(c.evaluate)
    requires forall i :: 0 <= i < |ss| ==> !UnderRepairOnly(ss[i])
    ensures |ss| - 1 <= 646 + 48 * Left(c.RetryBudget(), 0) + 24 * ChosenRepairs(ss)
  {
    hide Run, UnderRepairOnly, UnguardedSteps, ChosenRepairs, Left, Lifecycle.AllowsNoMore, Setting.RetryBudget;
    RunsAreBounded(c, ss);
    OnlyRepairsAreUnguarded(ss);
  }

  /** Over the whole run no trigger is served twice, no stage asks successfully more than twice and no
      target is gone back to more than twice. */
  lemma NoTriggerIsServedTwice(c: Setting, ss: seq<State>, t: LoopPolicy.Trigger, source: string, target: LoopPolicy.Target)
    requires Run(c, ss) && Lifecycle.AllowsNoMore(c.evaluate)
    ensures var h := ss[|ss| - 1].history;
            && LoopPolicy.Count(h, LoopPolicy.Both(LoopPolicy.OfTrigger(t))) <= 1
            && LoopPolicy.Count(h, LoopPolicy.Both(LoopPolicy.OfSource(source))) <= 2
            && LoopPolicy.Count(h, LoopPolicy.Both(LoopPolicy.OfTarget(target))) <= 2
            && LoopPolicy.Count(h, LoopPolicy.Both(LoopPolicy.Everything())) <= 3
  {
    hide Step, Lifecycle.AllowsNoMore;
    PipelineSafety.InvariantInRuns(c, ss, |ss| - 1);
    LoopPolicy.BudgetIsNeverExceeded(ss[|ss| - 1].history, LoopPolicy.DEFAULT_BUDGET, t, source, target);
  }

  /** Repairs that follow a publication, over the whole run. */
  function PublishRepairs(ss: seq<State>): nat {
    if |ss| < 2 then 0
    else PublishRepairs(ss[..|ss| - 1]) + One(ss[|ss| - 2].node == PostPublishVerify && ss[|ss| - 1].node == Repair)
  }

  lemma RepairCounts(c: Setting, s: State, s': State)
    requires Step(c, s, s') && Lifecycle.AllowsNoMore(c.evaluate)
    ensures s'.repairs == s.repairs + One(s.node == Repair)
    ensures s.node == PostPublishVerify && s'.node == Repair ==> s.repairs < MAX_REPAIRS
    ensures s.node == Repair ==> s'.node == Review
  {
    hide IsContractFor, Evaluates, Asked, Scheduler.Progression, Scheduler.Select, SetStatus, Lifecycle.AllowsNoMore,
         Lifecycle.AfterAcceptance, Lifecycle.FactsFor, ExecutionReview, PublishReview, AgentRetry.Decide;
    if s.node == PostPublishVerify && s'.node == Repair {
      RepairAfterPublishNeedsBudget(c, s);
    }
  }

  /** At most two repairs follow a publication in any run, however many others there are. */
  lemma {:induction false} PublishRepairsAreBounded(c: Setting, ss: seq<State>)
    requires Run(c, ss) && Lifecycle.AllowsNoMore(c.evaluate)
    ensures PublishRepairs(ss) <= MAX_REPAIRS
    ensures PublishRepairs(ss) <= ss[|ss| - 1].repairs + One(ss[|ss| - 1].node == Repair)
  {
    hide Step, Lifecycle.AllowsNoMore;
    if |ss| >= 2 {
      RunPrefix(c, ss);
      PublishRepairsAreBounded(c, ss[..|ss| - 1]);
      RepairCounts(c, ss[|ss| - 2], ss[|ss| - 1]);
    }
  }

  lemma RetryCounts(c: Setting, s: State, s': State)
    requires Step(c, s, s')
    ensures s'.retries == s.retries
            || (s.node == Review && s'.node == Execute && s'.retries == s.retries + 1 && s.retries < c.RetryBudget())
  {
    hide IsContractFor, Evaluates, Asked, Scheduler.Progression, Scheduler.Select, SetStatus, IsPlanned, Lifecycle.FactsFor,
         Lifecycle.AfterAcceptance, ExecutionReview, PublishReview, Repairable, Wired;
  }

  /** Over the whole run agent failures are retried at most as often as the stored budget says; zero
      stands for three. */
  lemma {:induction false} RetriesAreBounded(c: Setting, ss: seq<State>)
    requires Run(c, ss)
    ensures ss[|ss| - 1].retries
            <= if c.storedRetryBudget == 0 then 3 else if c.storedRetryBudget < 0 then 0 else c.storedRetryBudget
  {
    hide Step;
    if |ss| >= 2 {
      RunPrefix(c, ss);
      RetriesAreBounded(c, ss[..|ss| - 1]);
      RetryCounts(c, ss[|ss| - 2], ss[|ss| - 1]);
    }
  }

  /** Edges taken back to an earlier stage by the loop policy. */
  function Reentries(ss: seq<State>): nat {
    if |ss| < 2 then 0
    else Reentries(ss[..|ss| - 1]) + One(IsReentry(ss[|ss| - 2], ss[|ss| - 1]))
  }

  predicate IsReentry(s: State, s': State) {
    (s.node == QaReview || s.node == Node.Acceptance)
    && s'.node in {Research, Observe, BuildContext, Node.Obligations, Plan}
  }

  /** QA review asks the loop policy under this name. */
  function OfQaReview(): LoopPolicy.Decision -> bool { LoopPolicy.OfSource("verify") }

  ghost predicate Recorded(s: State, s': State) {
    && s.history <= s'.history
    && (IsReentry(s, s') ==> |s'.history| == |s.history| + 1 && LoopPolicy.Both(OfQaReview())(s'.history[|s.history|]))
  }

  lemma QaReviewIsRecorded(c: Setting, s: State, s': State, qa: QaVerdict, d: LoopPolicy.Decision)
    requires s.node == QaReview && s.plan.Some? && ReviewsQa(c, s, s', qa, d)
    ensures Recorded(s, s')
  {
    hide Asked, ClearedFor;
    var seen := s.(verification := s'.verification).(publish := None);
    if !qa.QaFailCode? && NodeOf(d.target).Some? && NodeOf(d.target) != Some(Finalize) {
      ReentryNeedsBudget(c, seen, "verify", d);
    }
  }

  lemma AcceptanceIsRecorded(c: Setting, s: State, s': State, named: Obligation -> bool, d: LoopPolicy.Decision)
    requires s.node == Node.Acceptance && s.plan.Some? && s.contract.Some? && Accepts(c, s, s', named, d)
    requires PipelineSafety.Invariant(c, s)
    ensures Recorded(s, s')
  {
    hide Asked, Evaluates, Lifecycle.AfterAcceptance, Lifecycle.FactsFor, PipelineSafety.Invariant;
    PipelineSafety.AcceptanceNeverReenters(c, s, d);
  }

  lemma OthersRecordNothing(c: Setting, s: State, s': State)
    requires Step(c, s, s') && s.node != QaReview && s.node != Node.Acceptance
    ensures s'.history == s.history
  {
    hide IsContractFor, Evaluates, Scheduler.Progression, Scheduler.Select, SetStatus, IsPlanned, Lifecycle.FactsFor,
         ExecutionReview, PublishReview, AgentRetry.Decide, Repairable, Wired;
  }

  /** A re-entry records an automatic decision asked for by QA review; nothing is ever taken out of the
      history. */
  lemma ReentryIsRecorded(c: Setting, s: State, s': State)
    requires Step(c, s, s') && PipelineSafety.Invariant(c, s)
    ensures Recorded(s, s')
  {
    hide Reviews, ReviewsQa, Accepts, ReviewsPublish, PipelineSafety.Invariant;
    if s.node == QaReview {
      var qa, d :| ReviewsQa(c, s, s', qa, d);
      QaReviewIsRecorded(c, s, s', qa, d);
    } else if s.node == Node.Acceptance {
      var named, d :| Accepts(c, s, s', named, d);
      AcceptanceIsRecorded(c, s, s', named, d);
    } else {
      hide Step;
      OthersRecordNothing(c, s, s');
    }
  }

  lemma {:induction false} ReentriesAreAutomatic(c: Setting, ss: seq<State>)
    requires Run(c, ss) && Lifecycle.AllowsNoMore(c.evaluate)
    ensures Reentries(ss) <= LoopPolicy.Count(ss[|ss| - 1].history, LoopPolicy.Both(OfQaReview()))
  {
    hide Step, IsReentry, Lifecycle.AllowsNoMore, PipelineSafety.Invariant;
    if |ss| >= 2 {
      var s, s' := ss[|ss| - 2], ss[|ss| - 1];
      RunPrefix(c, ss);
      ReentriesAreAutomatic(c, ss[..|ss| - 1]);
      PipelineSafety.InvariantInRuns(c, ss, |ss| - 2);
      ReentryIsRecorded(c, s, s');
      var f := LoopPolicy.Both(OfQaReview());
      LoopPolicy.CountGrows(s.history, s'.history[|s.history|..], f);
      assert s.history + s'.history[|s.history|..] == s'.history;
      if IsReentry(s, s') {
        assert s'.history[..|s'.history| - 1] == s.history;
      }
    }
  }

  /** The workflow goes back for new evidence or a new plan at most twice in any run: the policy would
      allow three re-entries, but only QA review ever asks for one, and no stage may ask for more than
      two. */
  lemma ReentriesAreBounded(c: Setting, ss: seq<State>)
    requires Run(c, ss) && Lifecycle.AllowsNoMore(c.evaluate)
    ensures Reentries(ss) <= 2
  {
    ReentriesAreAutomatic(c, ss);
    PipelineSafety.InvariantInRuns(c, ss, |ss| - 1);
    LoopPolicy.BudgetIsNeverExceeded(ss[|ss| - 1].history, LoopPolicy.DEFAULT_BUDGET, LoopPolicy.NoTrigger, "verify",
                                     LoopPolicy.ToContinue);
  }
}
