/** The pipeline-wide re-entry budget (control_plane/loop_policy.py). */
module LoopPolicy {
  import Lifecycle

  datatype Trigger =
    | NoTrigger
    | MissingResearchEvidence | MissingRepositoryObservation | MissingWorldObservation | MissingContext
    | MissingObligations | PlanIncomplete | VerificationMissingEvidence | AcceptanceMissingObligations
    | NewSideEffects | DocsImpact | ExamplesImpact | CiBuildImpact | CodegenBuildImpact
    | IntegrationScope | SetupGap | PublishDeeperPlanning | EnvironmentPrerequisiteMissing
    | PacketReplanning | RepairExhausted

  datatype Target =
    | ToContinue | ToResearch | ToObserve | ToBuildContext | ToObligations | ToPlan
    | ToExecute | ToVerify | ToFinalize

  /** `_target_for_trigger` */
  function TargetFor(t: Trigger): Target {
    match t
    case NoTrigger => ToContinue
    case MissingResearchEvidence => ToResearch
    case MissingRepositoryObservation | MissingWorldObservation | SetupGap
      | EnvironmentPrerequisiteMissing | RepairExhausted => ToObserve
    case MissingContext => ToBuildContext
    case PlanIncomplete | PublishDeeperPlanning | PacketReplanning => ToPlan
    case MissingObligations | VerificationMissingEvidence | AcceptanceMissingObligations | NewSideEffects
      | DocsImpact | ExamplesImpact | CiBuildImpact | CodegenBuildImpact | IntegrationScope => ToObligations
  }

  datatype Budget = Budget(globally: int, perTrigger: int, perSource: int, perTarget: int)

  const DEFAULT_BUDGET := Budget(3, 1, 2, 2)

  datatype Decision = Decision(
    source: string, target: Target, trigger: Trigger, allowed: bool, automatic: bool, exhausted: bool)

  function Count(h: seq<Decision>, f: Decision -> bool): (n: nat)
    ensures n <= |h|
  {
    if h == [] then 0 else Count(h[..|h| - 1], f) + if f(h[|h| - 1]) then 1 else 0
  }

  function OfTrigger(t: Trigger): Decision -> bool { (d: Decision) => d.trigger == t }
  function OfSource(s: string): Decision -> bool { (d: Decision) => d.source == s }
  function OfTarget(t: Target): Decision -> bool { (d: Decision) => d.target == t }

  /** Every recorded decision counts against the budget, taken or not. */
  predicate Exhausted(source: string, t: Trigger, prior: seq<Decision>, b: Budget) {
    || |prior| >= b.globally
    || Count(prior, OfTrigger(t)) >= b.perTrigger
    || Count(prior, OfSource(source)) >= b.perSource
    || Count(prior, OfTarget(TargetFor(t))) >= b.perTarget
  }

  /** `evaluate`, for a detected trigger; `base` holds the facts that are not about re-entry. */
  function Evaluate(source: string, t: Trigger, prior: seq<Decision>, b: Budget,
                    base: Lifecycle.Facts, evaluate: Lifecycle.Evaluator): Decision {
    if t.NoTrigger? then Decision(source, ToContinue, t, true, false, false)
    else
      var exhausted := Exhausted(source, t, prior, b);
      var facts := base.(reentryRequired := true, reentryHasTarget := !TargetFor(t).ToContinue?,
                         reentryExhausted := exhausted);
      var allowed := evaluate(Lifecycle.CanReenter, facts).allowed && !exhausted;
      Decision(source, if allowed then TargetFor(t) else ToFinalize, t, allowed, allowed, exhausted)
  }

  /** The in-process policy adds nothing to the budget: it re-enters exactly while budget is left. */
  lemma ReentersIffBudgetLeft(source: string, t: Trigger, prior: seq<Decision>, b: Budget, base: Lifecycle.Facts)
    ensures var d := Evaluate(source, t, prior, b, base, Lifecycle.Fallback);
            && (d.automatic <==> !t.NoTrigger? && !Exhausted(source, t, prior, b))
            && (!t.NoTrigger? && !d.automatic ==> d.target == ToFinalize)
            && (d.exhausted <==> !t.NoTrigger? && Exhausted(source, t, prior, b))
            && d.source == source && d.trigger == t && (d.automatic ==> d.target == TargetFor(t))
  {
  }

  // ----- runs -----

  /** A history in which every automatic decision was taken by the policy on the history before
      it. Which of the other decisions were recorded, and what they say, is left open, and so is
      the evaluator behind each decision. */
  ghost predicate Run(h: seq<Decision>, b: Budget) {
    forall i {:trigger h[i]} :: 0 <= i < |h| && h[i].automatic ==> Taken(h[i], h[..i], b)
  }

  ghost predicate Taken(d: Decision, prior: seq<Decision>, b: Budget) {
    exists base, evaluate :: d == Evaluate(d.source, d.trigger, prior, b, base, evaluate)
  }

  function Both(f: Decision -> bool): Decision -> bool { (d: Decision) => d.automatic && f(d) }

  function Everything(): Decision -> bool { (d: Decision) => true }

  function AtLeastZero(n: int): nat { if n < 0 then 0 else n }

  lemma {:induction false} CountBoth(h: seq<Decision>, f: Decision -> bool)
    ensures Count(h, Both(f)) <= Count(h, f)
  {
    if h != [] { CountBoth(h[..|h| - 1], f); }
  }

  lemma {:induction false} CountEverything(h: seq<Decision>)
    ensures Count(h, Everything()) == |h|
  {
    if h != [] { CountEverything(h[..|h| - 1]); }
  }

  /** One limit: if automatic decisions of a class are only taken below the limit, they never
      exceed it. */
  lemma {:induction false} AutomaticStaysBelow(h: seq<Decision>, f: Decision -> bool, limit: int)
    requires forall i {:trigger h[i]} :: 0 <= i < |h| && Both(f)(h[i]) ==> Count(h[..i], f) < limit
    ensures Count(h, Both(f)) <= AtLeastZero(limit)
  {
    if h != [] {
      var front := h[..|h| - 1];
      forall i | 0 <= i < |front| && Both(f)(front[i]) ensures Count(front[..i], f) < limit {
        assert front[i] == h[i] && front[..i] == h[..i];
      }
      AutomaticStaysBelow(front, f, limit);
      CountBoth(front, f);
      assert Both(f)(h[|h| - 1]) ==> Count(front, f) < limit;
    }
  }

  /** Over any run, automatic re-entries stay within the global limit and within the limit of every
      trigger, source stage and target. */
  lemma BudgetIsNeverExceeded(h: seq<Decision>, b: Budget, t: Trigger, source: string, target: Target)
    requires Run(h, b)
    ensures Count(h, Both(Everything())) <= AtLeastZero(b.globally)
    ensures Count(h, Both(OfTrigger(t))) <= AtLeastZero(b.perTrigger)
    ensures Count(h, Both(OfSource(source))) <= AtLeastZero(b.perSource)
    ensures Count(h, Both(OfTarget(target))) <= AtLeastZero(b.perTarget)
  {
    forall i {:trigger h[i]} | 0 <= i < |h| && h[i].automatic
      ensures !Exhausted(h[i].source, h[i].trigger, h[..i], b)
      ensures h[i].target == TargetFor(h[i].trigger)
      ensures Count(h[..i], Everything()) == i
    {
      assert Taken(h[i], h[..i], b);
      CountEverything(h[..i]);
    }
    AutomaticStaysBelow(h, Everything(), b.globally);
    AutomaticStaysBelow(h, OfTrigger(t), b.perTrigger);
    AutomaticStaysBelow(h, OfSource(source), b.perSource);
    AutomaticStaysBelow(h, OfTarget(target), b.perTarget);
  }

  lemma {:induction false} CountGrows(h: seq<Decision>, more: seq<Decision>, f: Decision -> bool)
    ensures Count(h, f) <= Count(h + more, f)
  {
    if more == [] {
      assert h + more == h;
    } else {
      CountGrows(h, more[..|more| - 1], f);
      assert (h + more)[..|h + more| - 1] == h + more[..|more| - 1];
    }
  }

  /** Once a limit is hit it stays hit, whatever is recorded afterwards. */
  lemma ExhaustionIsPermanent(source: string, t: Trigger, h: seq<Decision>, more: seq<Decision>, b: Budget)
    requires Exhausted(source, t, h, b)
    ensures Exhausted(source, t, h + more, b)
  {
    CountGrows(h, more, OfTrigger(t));
    CountGrows(h, more, OfSource(source));
    CountGrows(h, more, OfTarget(TargetFor(t)));
  }

  /** Decisions that found nothing to do use the budget up too: after `globally` recorded decisions
      of any kind no trigger is served any more. */
  lemma RecordedDecisionsUseUpTheBudget(source: string, t: Trigger, h: seq<Decision>, b: Budget,
                                        base: Lifecycle.Facts, evaluate: Lifecycle.Evaluator)
    requires |h| >= b.globally
    ensures !Evaluate(source, t, h, b, base, evaluate).automatic
  {
  }

  lemma CountTwo(d: Decision, e: Decision, f: Decision -> bool)
    ensures Count([d], f) == if f(d) then 1 else 0
    ensures Count([d, e], f) == (if f(d) then 1 else 0) + (if f(e) then 1 else 0)
  {
    assert [d][..0] == [] && [d, e][..1] == [d];
  }

  function Reentry(source: string, t: Trigger): Decision {
    Decision(source, TargetFor(t), t, true, true, false)
  }

  lemma ReentryIsTaken(source: string, t: Trigger, prior: seq<Decision>, b: Budget, base: Lifecycle.Facts)
    requires !t.NoTrigger? && !Exhausted(source, t, prior, b)
    ensures Taken(Reentry(source, t), prior, b)
  {
    hide Exhausted;
    ReentersIffBudgetLeft(source, t, prior, b, base);
    assert Reentry(source, t) == Evaluate(source, t, prior, b, base, Lifecycle.Fallback);
  }

  /** The policy's own bound is exact: with two stages asking, the default budget allows three
      re-entries. */
  lemma DefaultBudgetIsReachable(base: Lifecycle.Facts)
    ensures var h := [Reentry("verify", DocsImpact), Reentry("verify", SetupGap), Reentry("acceptance", CiBuildImpact)];
            Run(h, DEFAULT_BUDGET) && Count(h, Both(Everything())) == 3
  {
    hide Taken, Count;
    var d0, d1, d2 := Reentry("verify", DocsImpact), Reentry("verify", SetupGap), Reentry("acceptance", CiBuildImpact);
    var h := [d0, d1, d2];
    assert h[..0] == [] && h[..1] == [d0] && h[..2] == [d0, d1];
    assert Taken(d0, h[..0], DEFAULT_BUDGET) by {
      ReentryIsTaken("verify", DocsImpact, [], DEFAULT_BUDGET, base);
    }
    assert Taken(d1, h[..1], DEFAULT_BUDGET) by {
      CountTwo(d0, d0, OfTrigger(SetupGap));
      CountTwo(d0, d0, OfSource("verify"));
      CountTwo(d0, d0, OfTarget(ToObserve));
      ReentryIsTaken("verify", SetupGap, [d0], DEFAULT_BUDGET, base);
    }
    assert Taken(d2, h[..2], DEFAULT_BUDGET) by {
      assert "verify"[0] == 'v' && "acceptance"[0] == 'a';
      CountTwo(d0, d1, OfTrigger(CiBuildImpact));
      CountTwo(d0, d1, OfSource("acceptance"));
      CountTwo(d0, d1, OfTarget(ToObligations));
      ReentryIsTaken("acceptance", CiBuildImpact, [d0, d1], DEFAULT_BUDGET, base);
    }
    assert Count(h, Both(Everything())) == 3 by {
      CountThree(d0, d1, d2, Both(Everything()));
    }
  }

  lemma CountThree(d: Decision, e: Decision, g: Decision, f: Decision -> bool)
    requires f(d) && f(e) && f(g)
    ensures Count([d, e, g], f) == 3
  {
    assert [d, e, g][..2] == [d, e];
    CountTwo(d, e, f);
  }
}
