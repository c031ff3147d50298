/** What holds at every point of every run: publication is never premature, and a reported success
    rests on the evidence. */
module PipelineSafety {
  import opened Prelude
  import opened Topology
  import opened Evidence
  import opened Acceptance
  import opened Evaluation
  import opened Pipeline
  import Checks
  import Lifecycle
  import LoopPolicy
  import Report

  /** `d` is the kernel's verdict on this contract and evidence, for some outcome of the text search. */
  ghost predicate VerdictOn(d: Option<Decision>, contract: Option<seq<Obligation>>, r: Results) {
    d.Some? && contract.Some? && exists named :: Evaluates(d.value, contract.value, r, named)
  }

  ghost predicate GateOpen(s: State) {
    && s.plan.Some? && s.contract.Some? && s.acceptance.Some?
    && exists named ::
         && Evaluates(s.acceptance.value, s.contract.value, s.BeforePublish(), named)
         && Lifecycle.MayPublish(s.plan.value, s.contract.value, s.BeforePublish(), named)
  }

  /** The plan the contract was built for. */
  ghost predicate ContractKept(c: Setting, s: State) {
    && (s.plan.Some? <==> s.contract.Some?)
    && (s.plan.Some? ==> IsContractFor(s.contract.value, s.plan.value, c.implementIntent, s.obligations))
  }

  predicate Planning(n: Node) {
    n in {Intake, Classify, Route, Research, Observe, BuildContext, Node.Obligations, DoneContract, Plan}
  }

  /** The last transition after publication was denied. */
  ghost predicate PublicationDenied(c: Setting, s: State) {
    && s.plan.Some? && s.publish.Some?
    && !(PublishReview(c, s).next.NextFinalize? && PublishReview(c, s).allowed)
  }

  /** Where the acceptance in the final state comes from. */
  ghost predicate Accounted(c: Setting, s: State) {
    || s.acceptance.None?
    || (exists violations :: s.acceptance == Some(Report.AcceptanceFromViolation(violations)))
    || (s.publish.Some? && VerdictOn(s.acceptance, s.contract, s.Results()))
    || (((s.publish.None? && Copied(s)) || PublicationDenied(c, s))
        && VerdictOn(s.acceptance, s.contract, s.BeforePublish()))
  }

  /** The verification carries the acceptance's obligation results. */
  predicate Copied(s: State) {
    s.acceptance.Some? && s.verification == WithResults(s.verification, s.acceptance.value.results)
  }

  /** The trigger the loop policy would detect now. */
  function Trigger(c: Setting, s: State): LoopPolicy.Trigger
    requires s.plan.Some?
  {
    c.detect(s.plan.value, s.obligations, s.verification, s.publish)
  }

  ghost predicate Invariant(c: Setting, s: State) {
    && ContractKept(c, s)
    && (Planning(s.node) ==> s.plan.None?)
    && (s.node !in {Publish, PostPublishVerify, Repair, Finalize, End} ==> s.acceptance.None?)
    && (s.node !in {PostPublishVerify, Repair, Finalize, End} ==> s.publish.None?)
    && (s.node == Node.Acceptance ==> s.plan.Some? && Trigger(c, s).NoTrigger? && s.BeforePublish() == s.Results())
    && (s.node in {Publish, PostPublishVerify} ==> GateOpen(s))
    && (s.node == PostPublishVerify ==> s.publish.Some?)
    && (s.node in {Finalize, End} ==> Accounted(c, s))
    && LoopPolicy.Run(s.history, LoopPolicy.DEFAULT_BUDGET)
  }

  lemma StartIsInvariant(c: Setting, strategy: Option<Packets.Strategy>)
    ensures Invariant(c, Start(strategy))
  {
  }

  /** Recording one more decision of the policy, or one that re-enters nothing, keeps a history a
      history. */
  lemma HistoryGrows(c: Setting, s: State, source: string, d: LoopPolicy.Decision)
    requires s.plan.Some? && LoopPolicy.Run(s.history, LoopPolicy.DEFAULT_BUDGET)
    requires d == CONTINUE || Asked(c, s, source, d)
    ensures LoopPolicy.Run(s.history + [d], LoopPolicy.DEFAULT_BUDGET)
  {
    hide LoopPolicy.Exhausted;
    var h := s.history + [d];
    forall i {:trigger h[i]} | 0 <= i < |h| && h[i].automatic
      ensures LoopPolicy.Taken(h[i], h[..i], LoopPolicy.DEFAULT_BUDGET)
    {
      if i < |s.history| {
        assert h[..i] == s.history[..i] && h[i] == s.history[i];
      } else {
        assert h[..i] == s.history;
      }
    }
  }

  /** The decision recorded for a code failure uses up the global budget and no other. */
  lemma CodeFailureCostsGlobalBudget(h: seq<LoopPolicy.Decision>, t: LoopPolicy.Trigger)
    requires t != LoopPolicy.NoTrigger
    ensures LoopPolicy.Exhausted("verify", t, h + [CONTINUE], LoopPolicy.DEFAULT_BUDGET) <==>
            |h| >= 2 || LoopPolicy.Exhausted("verify", t, h, LoopPolicy.DEFAULT_BUDGET)
  {
    var longer := h + [CONTINUE];
    assert longer[..|longer| - 1] == h;
    assert "verify"[0] == 'v' && "qa_review"[0] == 'q';
    assert LoopPolicy.TargetFor(t) != LoopPolicy.ToContinue;
  }

  /** A trigger is answered by going somewhere, no trigger by going on. */
  lemma AskedGoesOnIff(c: Setting, s: State, source: string, d: LoopPolicy.Decision)
    requires s.plan.Some? && Asked(c, s, source, d)
    ensures NodeOf(d.target).None? <==> Trigger(c, s).NoTrigger?
    ensures NodeOf(d.target).Some? ==>
              NodeOf(d.target).value in {Research, Observe, BuildContext, Node.Obligations, Plan, Finalize}
  {
    hide LoopPolicy.Exhausted;
  }

  lemma PlanningStepsKeepInvariant(c: Setting, s: State, s': State)
    requires Invariant(c, s) && (Passes(s, s') || DoesResearch(s, s') || DerivesObligations(s, s') || Plans(c, s, s'))
    ensures Invariant(c, s')
  {
    hide IsContractFor, GateOpen, Scheduler.Select, LoopPolicy.Run, IsPlanned, Accounted, Trigger;
    if s.node == Finalize {
      assert s' == s.(node := End);
      StaysAccounted(c, s, End);
    } else {
      NothingToAccountFor(c, s');
    }
  }

  lemma NothingToAccountFor(c: Setting, s: State)
    ensures s.acceptance.None? ==> Accounted(c, s)
  {
  }

  lemma StaysAccounted(c: Setting, s: State, n: Node)
    requires Accounted(c, s)
    ensures Accounted(c, s.(node := n))
  {
    hide Evaluates, Lifecycle.FactsFor, Lifecycle.AfterPublish;
    var s' := s.(node := n);
    assert s.Results() == s'.Results() && s.BeforePublish() == s'.BeforePublish();
    assert PublicationDenied(c, s) <==> PublicationDenied(c, s');
  }

  lemma WorkStepsKeepInvariant(c: Setting, s: State, s': State)
    requires Invariant(c, s) && (Executes(s, s') || Repairs(s, s') || Publishes(s, s'))
    ensures Invariant(c, s')
  {
    hide IsContractFor, GateOpen, Scheduler.Select, LoopPolicy.Run, IsPlanned, SetStatus, Accounted, Trigger;
    if s.node == Publish {
      assert s'.BeforePublish() == s.BeforePublish();
      GateStaysOpen(s, s');
    }
  }

  lemma GateStaysOpen(s: State, s': State)
    requires GateOpen(s) && s'.plan == s.plan && s'.contract == s.contract && s'.acceptance == s.acceptance
    requires s'.BeforePublish() == s.BeforePublish()
    ensures GateOpen(s')
  {
    hide Evaluates, Lifecycle.MayPublish;
  }

  lemma ReviewKeepsInvariant(c: Setting, s: State, s': State, marked: bool)
    requires Invariant(c, s) && s.node == Review && s.plan.Some? && s.execution.Some?
    requires Reviews(c, s, s', marked)
    ensures Invariant(c, s')
  {
    hide IsContractFor, Scheduler.Progression, LoopPolicy.Run, ExecutionReview, SetStatus, AgentRetry.Decide,
         Report.AcceptanceFromViolation, GateOpen;
  }

  lemma ClearedKeepsContract(c: Setting, s: State, target: Node)
    requires ContractKept(c, s)
    requires target in {Research, Observe, BuildContext, Node.Obligations, Plan, Finalize}
    ensures ContractKept(c, ClearedFor(s, target))
    ensures target != Finalize ==> ClearedFor(s, target).plan.None?
    ensures ClearedFor(s, target).acceptance == s.acceptance && ClearedFor(s, target).publish.None?
  {
    hide IsContractFor;
  }

  lemma QaReviewKeepsInvariant(c: Setting, s: State, s': State, qa: QaVerdict, d: LoopPolicy.Decision)
    requires Invariant(c, s) && s.node == QaReview && s.plan.Some? && ReviewsQa(c, s, s', qa, d)
    ensures Invariant(c, s')
  {
    hide IsContractFor, LoopPolicy.Run, GateOpen, ClearedFor, Asked;
    var seen := s.(verification := s'.verification);
    assert seen.(publish := None) == seen;
    HistoryGrows(c, seen, "verify", d);
    assert ContractKept(c, seen);
    if !qa.QaFailCode? {
      AskedGoesOnIff(c, seen, "verify", d);
      if NodeOf(d.target).Some? {
        ClearedKeepsContract(c, seen, NodeOf(d.target).value);
      }
    }
  }

  /** Acceptance is only reached when QA review detected no trigger, and it looks at the same plan,
      obligations and verification: it never re-enters. */
  lemma AcceptanceNeverReenters(c: Setting, s: State, d: LoopPolicy.Decision)
    requires Invariant(c, s) && s.node == Node.Acceptance && Asked(c, s, "acceptance", d)
    ensures NodeOf(d.target).None?
  {
    AskedGoesOnIff(c, s, "acceptance", d);
  }

  lemma AcceptanceKeepsInvariant(c: Setting, s: State, s': State, named: Obligation -> bool, d: LoopPolicy.Decision)
    requires Invariant(c, s) && Lifecycle.AllowsNoMore(c.evaluate)
    requires s.node == Node.Acceptance && s.plan.Some? && s.contract.Some? && Accepts(c, s, s', named, d)
    ensures Invariant(c, s')
  {
    hide IsContractFor, LoopPolicy.Run, Asked, Evaluates, Lifecycle.AllowsNoMore, Lifecycle.FactsFor,
         Lifecycle.AfterAcceptance, Lifecycle.MayPublish, LoopPolicy.Evaluate;
    AcceptanceNeverReenters(c, s, d);
    HistoryGrows(c, s, "acceptance", d);
    assert s.Results() == s.BeforePublish() == s'.BeforePublish();
    assert VerdictOn(s'.acceptance, s'.contract, s'.BeforePublish());
    if s'.node == Publish {
      Lifecycle.NoPrematurePublish(s.plan.value, c.implementIntent, s.obligations, s.contract.value, s.Results(), named,
                                   s'.acceptance.value, 0, MAX_REPAIRS, c.evaluate);
    }
  }

  lemma PublishReviewKeepsInvariant(c: Setting, s: State, s': State, named: Obligation -> bool)
    requires Invariant(c, s) && s.node == PostPublishVerify && s.plan.Some? && s.publish.Some?
    requires ReviewsPublish(c, s, s', named)
    ensures Invariant(c, s')
  {
    hide IsContractFor, LoopPolicy.Run, Evaluates, Lifecycle.FactsFor, Lifecycle.AfterPublish, Lifecycle.MayPublish;
    assert s.contract.Some?;
    assert PublishReview(c, s') == PublishReview(c, s);
    assert s'.BeforePublish() == s.BeforePublish() && s'.Results() == s.Results();
    assert VerdictOn(s.acceptance, s.contract, s.BeforePublish());
    if s'.acceptance != s.acceptance || (PublishReview(c, s).next.NextFinalize? && PublishReview(c, s).allowed) {
      assert VerdictOn(s'.acceptance, s'.contract, s'.Results());
    }
  }

  lemma StepKeepsInvariant(c: Setting, s: State, s': State)
    requires Invariant(c, s) && Step(c, s, s') && Lifecycle.AllowsNoMore(c.evaluate)
    ensures Invariant(c, s')
  {
    hide Invariant, Reviews, ReviewsQa, Accepts, ReviewsPublish, Lifecycle.AllowsNoMore, Passes, DoesResearch,
         DerivesObligations, Plans, Executes, Repairs, Publishes;
    match s.node
    case Review =>
      var marked :| Reviews(c, s, s', marked);
      ReviewKeepsInvariant(c, s, s', marked);
    case QaReview =>
      var qa, d :| ReviewsQa(c, s, s', qa, d);
      QaReviewKeepsInvariant(c, s, s', qa, d);
    case Acceptance =>
      var named, d :| Accepts(c, s, s', named, d);
      AcceptanceKeepsInvariant(c, s, s', named, d);
    case PostPublishVerify =>
      var named :| ReviewsPublish(c, s, s', named);
      PublishedBefore(c, s);
      PublishReviewKeepsInvariant(c, s, s', named);
    case Execute | Repair | Publish => WorkStepsKeepInvariant(c, s, s');
    case _ => PlanningStepsKeepInvariant(c, s, s');
  }

  lemma PublishedBefore(c: Setting, s: State)
    requires Invariant(c, s) && s.node == PostPublishVerify
    ensures s.publish.Some?
  {
  }

  lemma {:induction false} InvariantInRuns(c: Setting, ss: seq<State>, i: nat)
    requires Run(c, ss) && Lifecycle.AllowsNoMore(c.evaluate) && i < |ss|
    ensures Invariant(c, ss[i])
  {
    hide Step, Invariant, Lifecycle.AllowsNoMore;
    if i == 0 {
      StartIsInvariant(c, ss[0].strategy);
    } else {
      InvariantInRuns(c, ss, i - 1);
      StepKeepsInvariant(c, ss[i - 1], ss[i]);
    }
  }

  // ----- publication -----

  /** Whenever a run is at the publish stage, everything but publication itself is done: all other
      obligations are satisfied by the evidence in the state, execution was clean and nothing in the
      environment blocks. The stage's own check therefore never fails. */
  lemma PublicationIsNeverPremature(c: Setting, ss: seq<State>, i: nat)
    requires Run(c, ss) && Lifecycle.AllowsNoMore(c.evaluate) && i < |ss| && ss[i].node == Publish
    ensures GateOpen(ss[i]) && PublishAllowed(ss[i])
    ensures Lifecycle.CleanExecution(ss[i].execution) && !Checks.EnvironmentBlocked(ss[i].BeforePublish())
  {
    hide Step;
    var s := ss[i];
    InvariantInRuns(c, ss, i);
    var named :| Evaluates(s.acceptance.value, s.contract.value, s.BeforePublish(), named)
                 && Lifecycle.MayPublish(s.plan.value, s.contract.value, s.BeforePublish(), named);
    GateIsReady(c, s, named);
  }

  lemma GateIsReady(c: Setting, s: State, named: Obligation -> bool)
    requires ContractKept(c, s) && s.plan.Some? && s.acceptance.Some?
    requires Evaluates(s.acceptance.value, s.contract.value, s.BeforePublish(), named)
    requires Lifecycle.MayPublish(s.plan.value, s.contract.value, s.BeforePublish(), named)
    ensures PublishAllowed(s)
    ensures s.acceptance.value.accepted <==> PublishDone(s.BeforePublish())
  {
    hide Verdict, Judgement, Prerequisites, Checks.EnvironmentBlocked, Checks.PassedFor, Detailed, DemandsNothingElse,
         GenericEvidence, PublishDone, Lifecycle.PublishFinished, Lifecycle.MandatoryVerification,
         Checks.RanFor, Checks.PrerequisitesProved, HasLevel;
    var items, r := s.contract.value, s.BeforePublish();
    Lifecycle.ContractsAreNotEmpty(items, s.plan.value, c.implementIntent, s.obligations);
    Lifecycle.PublishReadyIff(s.acceptance.value, items, Prerequisites(s.plan.value, s.obligations), r, named);
    assert PublishSatisfied in Kinds(items);
    var p :| 0 <= p < |items| && items[p].kind.PublishSatisfied?;
    assert Satisfies(items[p], r, named) <==> PublishDone(r);
    assert forall k :: 0 <= k < |items| && items[k].kind.PublishSatisfied? ==> k == p;
  }
}
