/** A run that goes back twice, as often as any run can. */
module ReentryExamples {
  import opened Prelude
  import opened Topology
  import opened Acceptance
  import opened Pipeline
  import opened PipelineExamples
  import opened PipelineTermination
  import Lifecycle
  import LoopPolicy
  import Packets
  import Scheduler

  // ----- counting along a run -----

  lemma ReentriesAdd(ss: seq<State>, s': State)
    requires ss != []
    ensures Reentries(ss + [s']) == Reentries(ss) + One(IsReentry(ss[|ss| - 1], s'))
  {
    assert (ss + [s'])[..|ss|] == ss;
  }

  lemma Further(c: Setting, ss: seq<State>, s': State) returns (longer: seq<State>)
    requires ss != [] && Run(c, ss) && Step(c, ss[|ss| - 1], s')
    ensures longer != [] && Run(c, longer) && longer[|longer| - 1] == s'
    ensures Reentries(longer) == Reentries(ss) + One(IsReentry(ss[|ss| - 1], s'))
  {
    hide Run, Step, IsReentry, Reentries;
    Extend(c, ss, s');
    ReentriesAdd(ss, s');
    longer := ss + [s'];
  }

  // ----- from planning to QA review -----

  /** Back at planning with this verification, after these decisions. */
  function Again(v: Option<VerificationResult>, h: seq<LoopPolicy.Decision>): State {
    Told().(execution := if v.Some? then Some(SUCCESSFUL) else None, verification := v, history := h)
  }

  /** The work done, at stage `n`. */
  function Worked(s: State, n: Node): State {
    Begins(s, ThePlan(Packets.Completed)).(node := n, execution := Some(SUCCESSFUL), active := None)
  }

  /** The stages from planning to QA review when nothing goes wrong. */
  function Round(s: State, k: nat): State
    requires k <= 7
  {
    var begun := Begins(s, ThePlan(Packets.Pending));
    match k
    case 0 => s
    case 1 => begun.(node := Policy)
    case 2 => begun.(node := WorkspacePrepare)
    case 3 => begun
    case 4 => Worked(s, Review).(active := Some("p"))
    case 5 => Worked(s, QaPlan)
    case 6 => Worked(s, QaExecute)
    case _ => Worked(s, QaReview)
  }

  lemma WorkIsDone(c: Setting, s: State)
    requires s.node == Plan && s.strategy == None
    ensures Step(c, Round(s, 3), Round(s, 4))
  {
    SelectsThePacket();
    SettingThePacket(Packets.Pending, Packets.Completed);
    SuccessCompletes();
    hide Scheduler.Select, SetStatus, KindOf, Leaves, Step, IsPlanned;
    Executing(c, Round(s, 3), SUCCESSFUL, Packets.Completed);
  }

  lemma SuccessCompletes()
    ensures KindOf(ThePlan(Packets.Pending), Some("p")) == Packets.Implementation
    ensures Leaves(SUCCESSFUL, Packets.Implementation, Packets.Completed)
    ensures Disciplined(SUCCESSFUL) && !Repairable(SUCCESSFUL)
    ensures Scheduler.Progression(ThePlan(Packets.Completed), None).nextStage == Scheduler.ToQaPlan
  {
    assert Packets.Completed == Scheduler.TypedStatus(SUCCESSFUL, Packets.Implementation, false);
    hide Scheduler.Select;
    assert Scheduler.PlanCompleted(ThePlan(Packets.Completed));
  }

  lemma WorkIsReviewed(c: Setting, s: State)
    requires c.evaluate == Lifecycle.Fallback && s.node == Plan && s.strategy == None
    ensures Step(c, Round(s, 4), Round(s, 5))
  {
    SuccessCompletes();
    hide Scheduler.Progression, Leaves, KindOf, Step, Disciplined, Repairable;
    SentOn(c, Round(s, 4), None);
  }

  lemma RoundIsPlanned(c: Setting, s: State)
    requires s.node == Plan && s.obligations == Some(OBLIGATIONS)
    ensures Step(c, s, Round(s, 1)) && Step(c, Round(s, 1), Round(s, 2)) && Step(c, Round(s, 2), Round(s, 3))
  {
    SelectsThePacket();
    hide IsPlanned, Step;
    PlanningIsWired(c, s, ThePlan(Packets.Pending));
  }

  lemma RoundGoesThroughQa(c: Setting, s: State)
    ensures Step(c, Round(s, 5), Round(s, 6)) && Step(c, Round(s, 6), Round(s, 7))
  {
    hide Step, ThePlan;
    QaIsStraight(c, Worked(s, QaPlan));
  }

  lemma RoundStep(c: Setting, s: State, k: nat)
    requires c.evaluate == Lifecycle.Fallback && k < 7
    requires s.node == Plan && s.strategy == None && s.obligations == Some(OBLIGATIONS)
    ensures Step(c, Round(s, k), Round(s, k + 1)) && Round(s, k).node != QaReview && Round(s, k).node != Node.Acceptance
  {
    hide Step, ThePlan;
    if k < 3 {
      RoundIsPlanned(c, s);
    } else if k == 3 {
      WorkIsDone(c, s);
    } else if k == 4 {
      WorkIsReviewed(c, s);
    } else {
      RoundGoesThroughQa(c, s);
    }
  }

  /** One round of planning, execution and review without going back. */
  lemma {:induction false} OneRound(c: Setting, ss: seq<State>, k: nat) returns (longer: seq<State>)
    requires c.evaluate == Lifecycle.Fallback && ss != [] && Run(c, ss) && k <= 7
    requires var s := ss[|ss| - 1]; s.node == Plan && s.strategy == None && s.obligations == Some(OBLIGATIONS)
    ensures longer != [] && Run(c, longer) && longer[|longer| - 1] == Round(ss[|ss| - 1], k)
    ensures Reentries(longer) == Reentries(ss)
  {
    if k == 0 {
      longer := ss;
    } else {
      RoundStep(c, ss[|ss| - 1], k - 1);
      hide Run, Step, Round;
      longer := OneRound(c, ss, k - 1);
      longer := Further(c, longer, Round(ss[|ss| - 1], k));
    }
  }

  // ----- going back -----

  function Back(t: LoopPolicy.Trigger): LoopPolicy.Decision { LoopPolicy.Reentry("verify", t) }

  lemma AsksToGoBack(c: Setting, s: State, t: LoopPolicy.Trigger, base: Lifecycle.Facts)
    requires c.evaluate == Lifecycle.Fallback && s.plan.Some? && !t.NoTrigger?
    requires c.detect(s.plan.value, s.obligations, s.verification, s.publish) == t
    requires !LoopPolicy.Exhausted("verify", t, s.history, LoopPolicy.DEFAULT_BUDGET)
    ensures Asked(c, s, "verify", Back(t))
  {
    hide LoopPolicy.Exhausted;
    LoopPolicy.ReentersIffBudgetLeft("verify", t, s.history, LoopPolicy.DEFAULT_BUDGET, base);
    assert Back(t) == LoopPolicy.Evaluate("verify", t, s.history, LoopPolicy.DEFAULT_BUDGET, base, c.evaluate);
  }

  lemma GoesBack(c: Setting, before: Option<VerificationResult>, h: seq<LoopPolicy.Decision>, v: VerificationResult,
                 t: LoopPolicy.Trigger, base: Lifecycle.Facts)
    requires c.evaluate == Lifecycle.Fallback && v.obligationResults == [] && !v.passed
    requires c.detect(PLAN, Some(OBLIGATIONS), Some(v), None) == t && LoopPolicy.TargetFor(t) == LoopPolicy.ToPlan
    requires !LoopPolicy.Exhausted("verify", t, h, LoopPolicy.DEFAULT_BUDGET)
    ensures Step(c, Round(Again(before, h), 7), Again(Some(v), h + [Back(t)]))
    ensures IsReentry(Round(Again(before, h), 7), Again(Some(v), h + [Back(t)]))
  {
    hide LoopPolicy.Exhausted, Asked, ThePlan;
    var s := Round(Again(before, h), 7);
    AsksToGoBack(c, s.(verification := Some(v)), t, base);
    SentBack(c, s, v, Back(t));
    BackAtPlan(before, h, v, t);
  }

  lemma SentBack(c: Setting, s: State, v: VerificationResult, d: LoopPolicy.Decision)
    requires s.node == QaReview && s.plan.Some? && s.publish.None? && d.target == LoopPolicy.ToPlan
    requires v.obligationResults == [] && !v.passed && Asked(c, s.(verification := Some(v)), "verify", d)
    ensures Step(c, s, Reenters(s.(verification := Some(v)), d))
  {
    hide Asked;
    var seen := s.(verification := Some(v));
    assert seen.(publish := None) == seen;
    assert ReviewsQa(c, s, Reenters(seen, d), QaFailRequirements, d);
  }

  lemma BackAtPlan(before: Option<VerificationResult>, h: seq<LoopPolicy.Decision>, v: VerificationResult,
                   t: LoopPolicy.Trigger)
    requires LoopPolicy.TargetFor(t) == LoopPolicy.ToPlan
    ensures Reenters(Round(Again(before, h), 7).(verification := Some(v)), Back(t)) == Again(Some(v), h + [Back(t)])
  {
    hide ThePlan;
  }

  lemma BudgetIsLeft()
    ensures !LoopPolicy.Exhausted("verify", LoopPolicy.PlanIncomplete, [], LoopPolicy.DEFAULT_BUDGET)
    ensures !LoopPolicy.Exhausted("verify", LoopPolicy.PacketReplanning, [Back(LoopPolicy.PlanIncomplete)],
                                  LoopPolicy.DEFAULT_BUDGET)
  {
    var d := Back(LoopPolicy.PlanIncomplete);
    LoopPolicy.CountTwo(d, d, LoopPolicy.OfTrigger(LoopPolicy.PacketReplanning));
    LoopPolicy.CountTwo(d, d, LoopPolicy.OfSource("verify"));
    LoopPolicy.CountTwo(d, d, LoopPolicy.OfTarget(LoopPolicy.ToPlan));
  }

  lemma GoesBackOnce(c: Setting, v: VerificationResult, base: Lifecycle.Facts) returns (ss: seq<State>)
    requires c.evaluate == Lifecycle.Fallback && v.obligationResults == [] && !v.passed
    requires c.detect(PLAN, Some(OBLIGATIONS), Some(v), None) == LoopPolicy.PlanIncomplete
    ensures ss != [] && Run(c, ss) && Reentries(ss) == 1
    ensures ss[|ss| - 1] == Again(Some(v), [Back(LoopPolicy.PlanIncomplete)])
  {
    hide *;
    FirstTimeBack(c, v, base);
    ss := ReachesPlan(c);
    NoneWithoutHistory(c, ss);
    ss := OneRound(c, ss, 7);
    ss := Further(c, ss, Again(Some(v), [Back(LoopPolicy.PlanIncomplete)]));
  }

  lemma FirstTimeBack(c: Setting, v: VerificationResult, base: Lifecycle.Facts)
    requires c.evaluate == Lifecycle.Fallback && v.obligationResults == [] && !v.passed
    requires c.detect(PLAN, Some(OBLIGATIONS), Some(v), None) == LoopPolicy.PlanIncomplete
    ensures var s, s' := Told(), Again(Some(v), [Back(LoopPolicy.PlanIncomplete)]);
            && s.node == Plan && s.strategy == None && s.obligations == Some(OBLIGATIONS) && s.history == []
            && Step(c, Round(s, 7), s') && One(IsReentry(Round(s, 7), s')) == 1
  {
    hide LoopPolicy.Exhausted, Step, IsReentry, Round, LoopPolicy.Reentry;
    BudgetIsLeft();
    GoesBack(c, None, [], v, LoopPolicy.PlanIncomplete, base);
    assert [] + [Back(LoopPolicy.PlanIncomplete)] == [Back(LoopPolicy.PlanIncomplete)];
    assert Told() == Again(None, []);
  }

  lemma SecondTimeBack(c: Setting, v: VerificationResult, w: VerificationResult, base: Lifecycle.Facts)
    requires c.evaluate == Lifecycle.Fallback && w.obligationResults == [] && !w.passed
    requires c.detect(PLAN, Some(OBLIGATIONS), Some(w), None) == LoopPolicy.PacketReplanning
    ensures var d, e := Back(LoopPolicy.PlanIncomplete), Back(LoopPolicy.PacketReplanning);
            var s, s' := Again(Some(v), [d]), Again(Some(w), [d, e]);
            && s.node == Plan && s.strategy == None && s.obligations == Some(OBLIGATIONS)
            && Step(c, Round(s, 7), s') && One(IsReentry(Round(s, 7), s')) == 1
  {
    hide LoopPolicy.Exhausted, Step, IsReentry, Round, LoopPolicy.Reentry;
    var d, e := Back(LoopPolicy.PlanIncomplete), Back(LoopPolicy.PacketReplanning);
    BudgetIsLeft();
    GoesBack(c, Some(v), [d], w, LoopPolicy.PacketReplanning, base);
    assert [d] + [e] == [d, e];
  }

  /** The verifier finds the plan incomplete, and the next one's packets in need of re-planning: a run
      that goes back twice, so the bound on re-entries is exact. */
  lemma TwoReentriesAreReached(c: Setting, v: VerificationResult, w: VerificationResult, base: Lifecycle.Facts)
    returns (ss: seq<State>)
    requires c.evaluate == Lifecycle.Fallback && !v.passed && !w.passed
    requires v.obligationResults == w.obligationResults == []
    requires c.detect(PLAN, Some(OBLIGATIONS), Some(v), None) == LoopPolicy.PlanIncomplete
    requires c.detect(PLAN, Some(OBLIGATIONS), Some(w), None) == LoopPolicy.PacketReplanning
    ensures ss != [] && Run(c, ss) && Reentries(ss) == 2
  {
    hide *;
    var d, e := Back(LoopPolicy.PlanIncomplete), Back(LoopPolicy.PacketReplanning);
    ss := GoesBackOnce(c, v, base);
    SecondTimeBack(c, v, w, base);
    ss := OneRound(c, ss, 7);
    ss := Further(c, ss, Again(Some(w), [d, e]));
  }

  lemma NoneWithoutHistory(c: Setting, ss: seq<State>)
    requires Run(c, ss) && c.evaluate == Lifecycle.Fallback && ss[|ss| - 1].history == []
    ensures Reentries(ss) == 0
  {
    Lifecycle.BuiltInEvaluatorsAllowNoMore();
    ReentriesAreAutomatic(c, ss);
  }
}
