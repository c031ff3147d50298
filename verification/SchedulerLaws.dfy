/** What packet statuses, selection and progression come down to, in terms of the raw results and of the
    packets' kinds and statuses alone; conditions the scheduler shares with other modules are spelled out
    here once more. */
module SchedulerLaws {
  import opened Prelude
  import opened Packets
  import opened Evidence
  import opened Scheduler
  import DependencySafety

  // ----- statuses drawn from results -----

  /** The result completes a packet of any kind: usable, succeeded or partial, and free of blockers. */
  predicate Usable(r: ExecutionResult) {
    r.ok && r.status in {Succeeded, Partial} && r.evidence.blockers == []
  }

  /** Some command left with an error, or some test failed or broke. */
  predicate Fails(r: ExecutionResult) {
    || (exists k :: 0 <= k < |r.evidence.commands| && r.evidence.commands[k].exitCode.Some?
                    && r.evidence.commands[k].exitCode.value != 0)
    || (exists k :: 0 <= k < |r.evidence.tests| && r.evidence.tests[k].status in {FailedWord, ErrorWord})
  }

  /** The result shows a change, nothing that failed, and at most evidence still missing. */
  predicate Changes(r: ExecutionResult) {
    && !Fails(r) && (r.evidence.filesChanged != [] || r.evidence.mutationChanged)
    && forall k :: 0 <= k < |r.evidence.blockers| ==> r.evidence.blockers[k].kind == MissingEvidence
  }

  predicate LacksEnvironment(r: ExecutionResult) {
    exists k :: 0 <= k < |r.evidence.blockers|
                && r.evidence.blockers[k].kind in {MissingEnvironmentDependency, MissingRuntimePrerequisite,
                                                   IntegrationEnvironmentUnavailable}
  }

  /** What completes a packet of this kind. */
  predicate Supports(r: ExecutionResult, kind: PacketType) {
    Usable(r) || (kind.Implementation? && Changes(r))
  }

  /** A packet is completed exactly by a result that supports it; otherwise it is blocked by a blocked
      result, by a missing environment, or, for a plan sensitive to the runtime, by a partial result with
      blockers and no failure; and it is failed by any other. */
  lemma TypedStatusIff(r: ExecutionResult, kind: PacketType, sensitive: bool)
    ensures TypedStatus(r, kind, sensitive) == Completed <==> Supports(r, kind)
    ensures TypedStatus(r, kind, sensitive) == Blocked <==>
            !Supports(r, kind)
            && (r.status == BlockedStatus || LacksEnvironment(r)
                || (sensitive && !Fails(r) && r.status == Partial && r.evidence.blockers != []))
    ensures TypedStatus(r, kind, sensitive) in {Completed, Blocked, Failed}
  {
  }

  /** The previous status of an update is that of the last packet with the id. */
  lemma {:induction false} LastStatusIsLast(ps: seq<Packet>, k: nat)
    requires k < |ps| && forall j :: k < j < |ps| ==> ps[j].id != ps[k].id
    ensures LastStatus(ps, ps[k].id) == Some(ps[k].status)
  {
    if k < |ps| - 1 {
      var front := ps[..|ps| - 1];
      assert forall j :: k < j < |front| ==> front[j].id == ps[j].id;
      LastStatusIsLast(front, k);
    }
  }

  // ----- selection -----

  predicate Repairing(plan: Plan, active: Option<Strategy>) {
    active == Some(RepairOnly) || (active == None && plan.strategy == Some(RepairOnly))
  }

  /** Pending repairs come first and failed packets second under repair_only, then whatever is pending. */
  function Urgency(p: Packet, repairing: bool): nat {
    if repairing && p.kind == Repair && p.status == Pending then 3
    else if repairing && p.status == Failed then 2
    else if p.status == Pending then 1
    else 0
  }

  /** The first of the most urgent packets. */
  ghost predicate MostUrgent(ps: seq<Packet>, repairing: bool, k: nat) {
    && k < |ps| && Urgency(ps[k], repairing) > 0
    && (forall j :: 0 <= j < |ps| ==> Urgency(ps[j], repairing) <= Urgency(ps[k], repairing))
    && (forall j :: 0 <= j < k ==> Urgency(ps[j], repairing) < Urgency(ps[k], repairing))
  }

  lemma {:induction false} UndoneAreListed(deps: seq<string>, byId: map<string, Packet>, d: string)
    ensures d in PendingDeps(deps, byId) <==> d in deps && !(d in byId && byId[d].status.Done())
  {
    if deps != [] {
      UndoneAreListed(deps[1..], byId, d);
      assert deps == [deps[0]] + deps[1..];
    }
  }

  lemma OfferMeans(p: Packet, ps: seq<Packet>)
    requires DistinctIds(ps)
    ensures Offer(p, ps).selected == Some(p.id)
    ensures Offer(p, ps).ready <==> DependencySafety.DependenciesDone(p, ps)
    ensures forall d :: d in Offer(p, ps).pendingDependencies <==>
                        d in p.dependencies && !DependencySafety.Satisfied(ps, d)
  {
    DependencySafety.DepsReadyMeansDone(p, ps);
    forall d ensures d in PendingDeps(p.dependencies, ById(ps)) <==>
                     d in p.dependencies && !(d in ById(ps) && ById(ps)[d].status.Done()) {
      UndoneAreListed(p.dependencies, ById(ps), d);
    }
    forall d | d in p.dependencies
      ensures d in ById(ps) && ById(ps)[d].status.Done() <==> DependencySafety.Satisfied(ps, d)
    {
      OneDependency(ps, d);
    }
  }

  lemma OneDependency(ps: seq<Packet>, d: string)
    requires DistinctIds(ps)
    ensures d in ById(ps) && ById(ps)[d].status.Done() <==> DependencySafety.Satisfied(ps, d)
  {
    if DependencySafety.Satisfied(ps, d) {
      var j :| 0 <= j < |ps| && ps[j].id == d && ps[j].status.Done();
      ByIdFindsEach(ps, j);
    }
    if d in ById(ps) {
      var k :| 0 <= k < |ps| && ps[k] == ById(ps)[d];
    }
  }

  lemma SelectsMostUrgent(plan: Plan, active: Option<Strategy>) returns (k: nat)
    ensures var ps, repairing := plan.packets, Repairing(plan, active);
            && (k < |ps| ==> MostUrgent(ps, repairing, k)
                             && Select(plan, active) == if ps[k].status == Failed then Selection(Some(ps[k].id), true, [])
                                                        else Offer(ps[k], ps))
            && (k >= |ps| ==> Select(plan, active) == Selection(None, false, [])
                              && forall j :: 0 <= j < |ps| ==> Urgency(ps[j], repairing) == 0)
  {
    hide Offer;
    var ps, repairing := plan.packets, Repairing(plan, active);
    var repair, failed, pending :=
      FirstIndex(ps, IsPendingRepair), FirstIndex(ps, IsFailed), FirstIndex(ps, IsPending);
    hide FirstIndex;
    assert Effective(active, plan).RepairOnly? <==> repairing;
    k := if repairing && repair < |ps| then repair else if repairing && failed < |ps| then failed else pending;
    forall j | 0 <= j < |ps|
      ensures IsPendingRepair(ps[j]) ==> repair <= j
      ensures IsFailed(ps[j]) ==> failed <= j
      ensures IsPending(ps[j]) ==> pending <= j
    {
    }
  }

  /** The selector picks the first of the most urgent packets, and nothing exactly when none is urgent.
      A failed packet taken up for repair is always ready; any other is ready exactly when its
      dependencies are done, and those that are not are listed. */
  lemma SelectMeans(plan: Plan, active: Option<Strategy>)
    requires DistinctIds(plan.packets)
    ensures var ps, repairing, sel := plan.packets, Repairing(plan, active), Select(plan, active);
            if forall k :: 0 <= k < |ps| ==> Urgency(ps[k], repairing) == 0
            then sel == Selection(None, false, [])
            else exists k: nat ::
              && MostUrgent(ps, repairing, k) && sel.selected == Some(ps[k].id)
              && (sel.ready <==> ps[k].status == Failed || DependencySafety.DependenciesDone(ps[k], ps))
              && (forall d :: d in sel.pendingDependencies <==>
                    ps[k].status == Pending && d in ps[k].dependencies && !DependencySafety.Satisfied(ps, d))
  {
    var k := SelectsMostUrgent(plan, active);
    hide Select, Offer, DependencySafety.DependenciesDone, DependencySafety.Satisfied;
    if k < |plan.packets| { OfferMeans(plan.packets[k], plan.packets); }
  }

  // ----- progression -----

  ghost predicate Has(ps: seq<Packet>, status: PacketStatus) {
    exists k :: 0 <= k < |ps| && ps[k].status == status
  }

  ghost predicate Finished(ps: seq<Packet>) {
    ps != [] && forall k :: 0 <= k < |ps| ==> ps[k].status in {Completed, Skipped}
  }

  /** The outcome in the order of precedence: finished, a ready packet, a failed one, a blocked
      implementation, another blocked one, a pending one that is not ready, nothing left to do. */
  lemma OutcomeMeans(plan: Plan, active: Option<Strategy>)
    ensures var o, ps, sel := Progression(plan, active).outcome, plan.packets, Select(plan, active);
            var ready := sel.ready && sel.selected.Some?;
            && (o == DecompositionCompleted <==> Finished(ps))
            && (o in {RunnablePacket, RepairRequired} <==> !Finished(ps) && ready)
            && (!Finished(ps) && !ready ==>
                  && (o == FailedTerminal <==> Has(ps, Failed))
                  && (!Has(ps, Failed) ==>
                        && (o in {RuntimeProofBlocked, NeedsEnvironment} <==> Has(ps, Blocked))
                        && (o == RuntimeProofBlocked <==>
                              exists k :: 0 <= k < |ps| && ps[k].status == Blocked && ps[k].kind == Implementation)
                        && (!Has(ps, Blocked) ==> o == if Has(ps, Pending) then ManualInterventionRequired
                                                       else BlockedTerminal)))
  {
    hide Select, RepairPacketSelected;
    var ps := plan.packets;
    assert Finished(ps) <==> PlanCompleted(plan);
    forall f: Packet -> bool ensures FirstIndex(ps, f) < |ps| <==> exists k :: 0 <= k < |ps| && f(ps[k]) {
    }
    assert Has(ps, Failed) <==> exists k :: 0 <= k < |ps| && IsFailed(ps[k]);
    assert Has(ps, Blocked) <==> exists k :: 0 <= k < |ps| && IsBlocked(ps[k]);
    assert Has(ps, Pending) <==> exists k :: 0 <= k < |ps| && IsPending(ps[k]);
  }

  /** Where each outcome leads, whether the run ends there, whether it counts as blocked, and what it
      tells the report. */
  lemma OutcomeLeadsTo(plan: Plan, active: Option<Strategy>)
    ensures var p := Progression(plan, active);
            && (p.nextStage == ToExecute <==> p.outcome in {RunnablePacket, RepairRequired})
            && (p.nextStage == ToQaPlan <==> p.outcome == DecompositionCompleted)
            && (p.nextStage == ToVerify <==> p.outcome == RuntimeProofBlocked)
            && (p.terminal <==> p.nextStage == ToFinalize)
            && (p.blocked <==> p.outcome in {RuntimeProofBlocked, NeedsEnvironment, ManualInterventionRequired,
                                             BlockedTerminal})
            && (p.hint == Some(HintFailed) <==> p.outcome == FailedTerminal)
            && (p.hint == Some(HintNeedsEnvironment) <==> p.outcome in {RuntimeProofBlocked, NeedsEnvironment})
            && (p.hint == Some(HintBlocked) <==> p.outcome in {ManualInterventionRequired, BlockedTerminal})
            && p.nextPacket == (if p.nextStage == ToExecute then Select(plan, active).selected else None)
            && (p.nextStage == ToExecute && DistinctIds(plan.packets) ==>
                  (p.outcome == RepairRequired <==>
                   Repairing(plan, active) || exists k :: 0 <= k < |plan.packets| && plan.packets[k].kind == Repair
                                                       && p.nextPacket == Some(plan.packets[k].id)))
  {
    hide Select;
  }
}
