/** Over whole runs of the workflow: a packet is only ever completed by a result that supports it. */
module PipelinePackets {
  import opened Prelude
  import opened Topology
  import opened Packets
  import opened Pipeline
  import opened PipelineTermination
  import Acceptance
  import Evaluation
  import Evidence
  import Lifecycle
  import Scheduler
  import SchedulerLaws

  /** A result that supports the packet, given while the packet was the active one. */
  predicate Earns(s: State, p: Packet) {
    s.node == Review && s.execution.Some? && s.active == Some(p.id) && SchedulerLaws.Supports(s.execution.value, p.kind)
  }

  /** Nothing changed about packet `k`. */
  predicate Keeps(s: State, s': State, k: nat) {
    && s.packets.Some? && s'.packets.Some? && k < |s.packets.value.packets| && k < |s'.packets.value.packets|
    && s'.packets.value.packets[k] == s.packets.value.packets[k]
  }

  predicate CompletedAt(s: State, k: nat) {
    s.packets.Some? && k < |s.packets.value.packets| && s.packets.value.packets[k].status == Completed
  }

  lemma LeavesCompleted(e: Evidence.ExecutionResult, kind: PacketType, status: PacketStatus)
    requires Leaves(e, kind, status)
    ensures status == Completed <==> SchedulerLaws.Supports(e, kind)
  {
    var sensitive :| status == Scheduler.TypedStatus(e, kind, sensitive);
    SchedulerLaws.TypedStatusIff(e, kind, sensitive);
  }

  lemma SameLength(p: Packets.Plan, id: Option<string>, status: PacketStatus)
    ensures |SetStatus(p, id, status).packets| == |p.packets|
  {
  }

  lemma SetOrKept(p: Packets.Plan, id: Option<string>, status: PacketStatus, k: nat)
    requires DistinctIds(p.packets) && k < |p.packets|
    ensures var q := SetStatus(p, id, status).packets;
            && |q| == |p.packets| && q[k].id == p.packets[k].id && q[k].kind == p.packets[k].kind
            && (q[k] == p.packets[k] || (id == Some(p.packets[k].id) && q[k].status == status))
            && (id == Some(p.packets[k].id) ==> q[k].status == status && KindOf(p, id) == p.packets[k].kind)
  {
    if id == Some(p.packets[k].id) {
      assert HasPacket(p.packets, id);
      var first := Scheduler.FirstIndex(p.packets, (q: Packet) => id == Some(q.id));
      assert first == k;
    }
  }

  lemma ExecutionCompletes(s: State, s': State, k: nat)
    requires PacketsKept(s) && Executes(s, s') && CompletedAt(s', k)
    ensures Keeps(s, s', k) || Earns(s', s'.packets.value.packets[k])
  {
    hide Scheduler.Select, SetStatus, Leaves, KindOf, SchedulerLaws.Supports;
    var p: Packets.Plan, status :|
      && (if s.packets.Some? then p == s.packets.value else IsPlanned(p))
      && var id := Scheduler.Select(p, s.strategy).selected;
         Leaves(s'.execution.value, KindOf(p, id), status) &&
         s' == s.(node := Review, execution := s'.execution, active := id, packets := Some(SetStatus(p, id, status)));
    var id := Scheduler.Select(p, s.strategy).selected;
    LeavesCompleted(s'.execution.value, KindOf(p, id), status);
    SameLength(p, id, status);
    SetOrKept(p, id, status, k);
  }

  lemma RepairCompletes(s: State, s': State, k: nat)
    requires PacketsKept(s) && Repairs(s, s') && CompletedAt(s', k)
    ensures Keeps(s, s', k) || Earns(s', s'.packets.value.packets[k])
  {
    hide SetStatus, Leaves, KindOf;
    var status :| Leaves(s'.execution.value, Packets.Verification, status)
      && s' == s.(node := Review, strategy := s'.strategy, execution := s'.execution, repairs := s.repairs + 1,
                  verification := None, publish := None, acceptance := None,
                  packets := if s.packets.Some? then Some(SetStatus(s.packets.value, s.active, status)) else None);
    LeavesCompleted(s'.execution.value, Packets.Verification, status);
    SameLength(s.packets.value, s.active, status);
    SetOrKept(s.packets.value, s.active, status, k);
  }

  lemma ReviewCompletesNothing(c: Setting, s: State, s': State, marked: bool, k: nat)
    requires PacketsKept(s) && s.node == Review && s.plan.Some? && s.execution.Some? && Reviews(c, s, s', marked)
    requires CompletedAt(s', k)
    ensures Keeps(s, s', k)
  {
    hide Scheduler.Progression, SetStatus, ExecutionReview, Repairable, RetryDecision, Report.AcceptanceFromViolation;
    SameLength(s.packets.value, s.active, Pending);
    SetOrKept(s.packets.value, s.active, Pending, k);
  }

  lemma OthersCompleteNothing(c: Setting, s: State, s': State, k: nat)
    requires Step(c, s, s') && s.node !in {Execute, Review, Node.Repair} && CompletedAt(s', k)
    ensures Keeps(s, s', k)
  {
    hide Acceptance.IsContractFor, Evaluation.Evaluates, Scheduler.Select, Lifecycle.FactsFor, Lifecycle.AfterAcceptance,
         PublishReview, Asked, Wired, Repairable, RetryDecision, ExecutionReview, SetStatus, Leaves;
    match s.node
    case QaReview =>
      var qa, d :| ReviewsQa(c, s, s', qa, d);
    case Acceptance =>
      var named, d :| Accepts(c, s, s', named, d);
    case PostPublishVerify =>
      var named :| ReviewsPublish(c, s, s', named);
    case _ =>
  }

  lemma StepCompletes(c: Setting, s: State, s': State, k: nat)
    requires PacketsKept(s) && Step(c, s, s') && CompletedAt(s', k)
    ensures Keeps(s, s', k) || Earns(s', s'.packets.value.packets[k])
  {
    hide PacketsKept, Reviews, Executes, Repairs, Keeps, Earns, CompletedAt;
    if s.node == Execute {
      ExecutionCompletes(s, s', k);
    } else if s.node == Node.Repair {
      RepairCompletes(s, s', k);
    } else if s.node == Review {
      var marked :| Reviews(c, s, s', marked);
      ReviewCompletesNothing(c, s, s', marked, k);
    } else {
      OthersCompleteNothing(c, s, s', k);
    }
  }

  /** The packet was earned at step `j` and the plan has been there ever since. */
  ghost predicate EarnedAt(ss: seq<State>, i: nat, j: nat, p: Packet)
    requires i < |ss|
  {
    j <= i && Earns(ss[j], p) && forall m :: j <= m <= i ==> ss[m].packets.Some?
  }

  /** In every run, a completed packet of the current plan was completed while it was active, by a result
      that is usable and free of blockers or, for an implementation packet, that changed something, shows
      no failing command or test and misses nothing but evidence. */
  lemma {:induction false} CompletedPacketsAreEarned(c: Setting, ss: seq<State>, i: nat, k: nat) returns (j: nat)
    requires Run(c, ss) && Lifecycle.AllowsNoMore(c.evaluate) && i < |ss| && CompletedAt(ss[i], k)
    ensures EarnedAt(ss, i, j, ss[i].packets.value.packets[k])
  {
    hide Step, PacketsKept, Earns, Lifecycle.AllowsNoMore;
    if i == 0 {
      assert false;
    } else {
      PacketsKeptInRuns(c, ss, i - 1);
      StepCompletes(c, ss[i - 1], ss[i], k);
      var p := ss[i].packets.value.packets[k];
      if Earns(ss[i], p) {
        j := i;
      } else {
        j := CompletedPacketsAreEarned(c, ss, i - 1, k);
      }
    }
  }

  lemma PacketsKeptInRuns(c: Setting, ss: seq<State>, i: nat)
    requires Run(c, ss) && Lifecycle.AllowsNoMore(c.evaluate) && i < |ss|
    ensures PacketsKept(ss[i])
  {
    hide Step, PacketsKept, Lifecycle.AllowsNoMore;
    var prefix := ss[..i + 1];
    assert forall m, n :: 0 <= m < |prefix| && n == m + 1 < |prefix| ==> Step(c, prefix[m], prefix[n]);
    MeasureAlongRun(c, prefix);
  }
}
