/** The planner and the scheduler together. */
module PlannedRuns {
  import opened Prelude
  import opened Packets
  import opened Scheduler
  import opened ScheduleRuns
  import DependencySafety
  import Evidence
  import Evaluation
  import Planner
  import Report
  import Text
  import Validator

  function PlanOf(brief: Planner.Brief, complexity: Complexity, f: Planner.Flags): Plan {
    Plan(Some(brief.strategy), complexity, brief.Chained(Planner.PlannedWork(brief.strategy, complexity, f)))
  }

  /** Running what the planner built, with any execution results and under any strategy but
      repair_only: at most as many executions as packets, so at most five; the run ends complete,
      failed, short of a runtime proof or short of an environment, and the first result that is not
      completed decides which; manual intervention and a terminal block are out of reach. */
  lemma PlannedRunsEndAsExpected(brief: Planner.Brief, complexity: Complexity, f: Planner.Flags, active: Option<Strategy>,
                                 results: seq<PacketStatus>)
    requires Planner.Complete(brief.wording) && !Text.Blank(brief.goal)
    requires !Effective(active, PlanOf(brief, complexity, f)).RepairOnly? && AllSettled(results)
    requires |results| >= |PlanOf(brief, complexity, f).packets|
    ensures var plan := PlanOf(brief, complexity, f);
            var (last, used) := Drive(plan, active, results);
            var c := CompletedPrefix(results, |plan.packets|);
            var outcome := Progression(last, active).outcome;
            && 1 <= used <= |plan.packets| <= 5
            && !Progression(last, active).nextStage.ToExecute?
            && Expected(outcome)
            && (outcome.DecompositionCompleted? <==> c == |plan.packets|)
            && (c < |plan.packets| ==> outcome == ChainOutcome(plan.packets, c, results[c]))
            && (outcome.FailedTerminal? <==> c < |plan.packets| && results[c].Failed?)
  {
    hide Progression, Drive, Planner.PlannedWork, Planner.Complete, Text.Blank;
    var plan := PlanOf(brief, complexity, f);
    Planner.PlannedIsReadyToRun(brief, complexity, f);
    ChainRun(plan, active, results);
  }

  lemma PlannedRepairsComeFirst(brief: Planner.Brief, complexity: Complexity, f: Planner.Flags)
    ensures RepairsFirst(PlanOf(brief, complexity, f).packets)
  {
    var work := Planner.PlannedWork(brief.strategy, complexity, f);
    Planner.OnlyRepairPlansRepair(brief.strategy, complexity, f);
    hide Planner.PlannedWork, Planner.Brief.Chained, Planner.Brief.Id;
    var ps := brief.Chained(work);
    forall i | 0 < i < |ps| ensures !ps[i].kind.Repair? {
      assert ps[i] == brief.Make(i + 1, work[i], brief.Waits(work, i));
      assert work[i] in work;
    }
  }

  /** Any plan the planner built, run under repair_only: it goes on exactly as long as no execution is
      blocked and not every packet has been completed, however often executions fail. */
  lemma PlannedRepairRuns(brief: Planner.Brief, complexity: Complexity, f: Planner.Flags, active: Option<Strategy>,
                          results: seq<PacketStatus>)
    requires Planner.Complete(brief.wording) && !Text.Blank(brief.goal)
    requires Effective(active, PlanOf(brief, complexity, f)).RepairOnly? && AllSettled(results)
    ensures var plan := PlanOf(brief, complexity, f);
            var (last, used) := Drive(plan, active, results);
            Progression(last, active).nextStage.ToExecute? <==>
              (forall i :: 0 <= i < |results| ==> !results[i].Blocked?) && CompletedCount(results) < |plan.packets|
  {
    var plan := PlanOf(brief, complexity, f);
    Planner.PlannedIsReadyToRun(brief, complexity, f);
    PlannedRepairsComeFirst(brief, complexity, f);
    hide Progression, Drive, Planner.PlannedWork, Planner.Complete, Text.Blank, RepairsFirst, Chain;
    RepairOnlyRun(plan, active, results, 0);
  }

  /** The single-packet fallback of an invalid plan keeps what its first packet is about, and the selector
      offers it as ready under every strategy, whatever had become of that packet. */
  lemma FallbackIsOffered(plan: Plan, active: Option<Strategy>)
    requires plan.packets != []
    ensures var q := Validator.FallbackPlan(plan);
            && |q.packets| == 1 && q.strategy == plan.strategy && q.complexity == plan.complexity
            && (var p, first := q.packets[0], plan.packets[0];
                && p.id == first.id && p.title == first.title && p.goal == first.goal && p.scope == first.scope
                && p.kind == first.kind && p.criteria == first.criteria && p.evidence == first.evidence
                && p.status == Pending && p.dependencies == [] && p.strategy == plan.strategy)
            && Select(q, active) == Selection(Some(plan.packets[0].id), true, [])
  {
    var q := Validator.FallbackPlan(plan);
    assert DependencySafety.DependenciesDone(q.packets[0], q.packets);
    DependencySafety.DepsReadyMeansDone(q.packets[0], q.packets);
    hide DepsReady, Prelude.MergeNew, Validator.NormalizedActions;
  }

  // ----- how a run that stops early is reported -----

  /** A chain that stopped at a packet which did not complete, reported without an acceptance: failed
      when the packet failed; otherwise short of an environment, unless the packet is an
      implementation whose evidence names no environment blocker. It is never reported completed. */
  lemma StoppedRunsAreReported(plan: Plan, active: Option<Strategy>, m: nat, status: PacketStatus, i: Report.Inputs)
    requires plan.packets != [] && ChainEnded(plan.packets, m, status) && m < |plan.packets|
    requires !Effective(active, plan).RepairOnly? && (status.Failed? || status.Blocked?)
    requires Report.Unhindered(i) && i.acceptance.None?
    requires i.decomposition == Some(plan) && i.progression == Some(Progression(plan, active))
    ensures var environment := i.results.execution.Some?
                               && Evidence.BlocksEnvironment(i.results.execution.value.evidence);
            Report.StatusOf(i) ==
              if status.Failed? then Evaluation.FailedFinal
              else if plan.packets[m].kind.Implementation? && !environment then Evaluation.BlockedFinal
              else Evaluation.NeedsEnvironment
  {
    EndedChainStops(plan, active, m, status);
    OutcomesHint(plan, active);
    hide Progression, ScheduleRuns.Chain;
    var ps := plan.packets;
    assert ps[m].status == status;
    assert forall k :: 0 <= k < |ps| && k != m ==> !ps[k].status.Blocked? && !ps[k].status.Failed?;
  }

  /** What the report reads off a progression that stops. */
  lemma OutcomesHint(plan: Plan, active: Option<Strategy>)
    ensures var p := Progression(plan, active);
            && (p.outcome.FailedTerminal? ==> p.terminal && p.hint == Some(HintFailed))
            && (p.outcome.NeedsEnvironment? ==> p.terminal && p.hint == Some(HintNeedsEnvironment))
            && (p.outcome.RuntimeProofBlocked? ==> !p.terminal)
  {
    hide Select;
  }
}
