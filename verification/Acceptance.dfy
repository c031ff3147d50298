/** Acceptance contracts, their evaluation and the evidence rules behind them
    (control_plane/kernel.py). */
module Acceptance {
  import opened Prelude
  import opened Text
  import opened Evidence

  // ----- inputs -----

  /** A lower-cased required test level. */
  datatype Level =
    | BuildTests | CompileTests | UnitTests | IntegrationTests | SmokeTests | E2eTests | EndToEndTests
    | RuntimeTests | RuntimeProof | OtherTests

  datatype ExecutionPlan = ExecutionPlan(
    requiresMutation: bool,
    mustChangeWorld: bool,
    expectedChanges: seq<string>,
    testLevels: seq<Level>,
    checks: seq<string>,
    environmentNotes: seq<string>,
    requireCommit: bool,
    requirePush: bool,
    createsPullRequest: bool,
    publicationSteps: seq<string>)
  {
    predicate Mutates() { requiresMutation || mustChangeWorld }

    /** `_publish_required` */
    predicate MustPublish() { requireCommit || requirePush || createsPullRequest || publicationSteps != [] }
  }

  datatype Obligations = Obligations(
    setupSteps: seq<string>,
    environmentConditions: seq<string>,
    documentation: seq<string>,
    examples: seq<string>,
    ci: seq<string>,
    codegen: seq<string>,
    surfaces: seq<string>,
    impacts: seq<Impact>)

  datatype Impact = Impact(summary: string, blocking: bool)

  datatype Kind =
    | CodeChanged | BuildSucceeded | RelevantTestsRun | RelevantTestsPassed
    | IntegrationTestsRun | IntegrationTestsPassed | EnvironmentSatisfied
    | DocumentationUpdated | ExamplesUpdated | CiUpdated | CodegenUpdated | WorkSurfaceComplete
    | PublishSatisfied | RequiredEvidencePresent

  /** The source's list of checks holds the test levels first, then the named checks. The display
      name is determined by the kind. */
  datatype Obligation = Obligation(
    id: nat, kind: Kind, blocking: bool, levels: seq<Level>, checks: seq<string>, environment: seq<string>)

  datatype ResultStatus = Passed | Failed | Blocked | NotRun

  /** `environmentBlocker` records whether the result carries an environment blocker. */
  datatype ObligationResult = ObligationResult(
    id: nat, kind: Kind, status: ResultStatus, environmentBlocker: bool)

  datatype VerificationResult = VerificationResult(
    passed: bool,
    evidence: StructuredEvidence,
    obligationResults: seq<ObligationResult>,
    performedLevels: seq<Level>,
    missingLevels: seq<Level>,
    checksPassed: seq<string>,
    checksFailed: seq<string>,
    missingEvidence: seq<string>,
    setupPerformed: seq<string>,
    missingSetup: seq<string>,
    commitRequired: bool, pushRequired: bool, commitDone: bool, pushDone: bool)

  /** The last two fields are what the text heuristics report of the publish result. */
  datatype PublishResult = PublishResult(
    ok: bool,
    evidence: StructuredEvidence,
    stageFailed: bool,
    textReportsFailedChecks: bool,
    forbiddenAction: bool)

  /** The three results the kernel reads; any of them may be missing. */
  datatype Results = Results(
    execution: Option<ExecutionResult>,
    verification: Option<VerificationResult>,
    publish: Option<PublishResult>)
  {
    function Evidences(): seq<StructuredEvidence> {
      (if execution.Some? then [execution.value.evidence] else [])
      + (if verification.Some? then [verification.value.evidence] else [])
      + (if publish.Some? then [publish.value.evidence] else [])
    }
  }

  // ----- the contract -----

  predicate HasLevel(levels: seq<Level>, wanted: set<Level>) {
    exists k :: 0 <= k < |levels| && levels[k] in wanted
  }

  const BUILD_LEVELS := {BuildTests, CompileTests}
  const INTEGRATION_LEVELS := {IntegrationTests, SmokeTests, E2eTests, EndToEndTests}
  const RUNTIME_LEVELS := {IntegrationTests, SmokeTests, E2eTests, EndToEndTests, RuntimeProof, RuntimeTests}

  function NonBlank(items: seq<string>): seq<string> {
    if items == [] then [] else
      NonBlank(items[..|items| - 1])
      + (if Blank(items[|items| - 1]) then [] else [Strip(items[|items| - 1])])
  }

  /** `_unique_str` of the setup and environment items a plan depends on. */
  function Prerequisites(plan: ExecutionPlan, obligations: Option<Obligations>): seq<string> {
    var runtime := HasLevel(plan.testLevels, RUNTIME_LEVELS);
    MergeNew([], NonBlank(
      (if runtime then plan.environmentNotes else [])
      + (if runtime && obligations.Some? then obligations.value.environmentConditions else [])
      + (if obligations.Some? then obligations.value.setupSteps else [])))
  }

  /** What a plan and its obligations oblige the task to; the last kind stands in for nothing else. */
  predicate Demands(kind: Kind, plan: ExecutionPlan, implementIntent: bool, obligations: Option<Obligations>) {
    match kind
    case CodeChanged => plan.Mutates() || implementIntent
    case BuildSucceeded => HasLevel(plan.testLevels, BUILD_LEVELS)
    case RelevantTestsRun | RelevantTestsPassed => plan.testLevels != [] || plan.checks != []
    case IntegrationTestsRun | IntegrationTestsPassed => HasLevel(plan.testLevels, INTEGRATION_LEVELS)
    case EnvironmentSatisfied => Prerequisites(plan, obligations) != [] || HasLevel(plan.testLevels, RUNTIME_LEVELS)
    case DocumentationUpdated => obligations.Some? && obligations.value.documentation != []
    case ExamplesUpdated => obligations.Some? && obligations.value.examples != []
    case CiUpdated => obligations.Some? && obligations.value.ci != []
    case CodegenUpdated => obligations.Some? && obligations.value.codegen != []
    case WorkSurfaceComplete => obligations.Some? && (obligations.value.surfaces != [] || obligations.value.impacts != [])
    case PublishSatisfied => plan.MustPublish()
    case RequiredEvidencePresent => DemandsNothingElse(plan, implementIntent, obligations)
  }

  predicate DemandsNothingElse(plan: ExecutionPlan, implementIntent: bool, obligations: Option<Obligations>) {
    && !plan.Mutates() && !implementIntent && plan.testLevels == [] && plan.checks == []
    && Prerequisites(plan, obligations) == [] && !plan.MustPublish()
    && (obligations.Some? ==>
          var o := obligations.value;
          o.documentation == [] && o.examples == [] && o.ci == [] && o.codegen == []
          && o.surfaces == [] && o.impacts == [])
  }

  function Kinds(items: seq<Obligation>): set<Kind> {
    set i | 0 <= i < |items| :: items[i].kind
  }

  /** Blocking obligations of distinct kinds under distinct ids. */
  ghost predicate WellKept(items: seq<Obligation>, prerequisites: seq<string>) {
    && (forall i :: 0 <= i < |items| ==> items[i].blocking && items[i].id == i)
    && (forall i, j :: 0 <= i < j < |items| ==> items[i].kind != items[j].kind)
    && (forall i :: 0 <= i < |items| && items[i].kind.EnvironmentSatisfied? ==>
          items[i].checks == prerequisites == items[i].environment)
  }

  // ----- what each obligation lists -----

  function LevelsFor(kind: Kind, plan: ExecutionPlan): seq<Level> {
    match kind
    case BuildSucceeded | RelevantTestsRun | RelevantTestsPassed | IntegrationTestsRun | IntegrationTestsPassed =>
      plan.testLevels
    case _ => []
  }

  /** Summaries of the blocking impacts, in order. */
  function BlockingSummaries(impacts: seq<Impact>): seq<string> {
    if impacts == [] then [] else
      BlockingSummaries(impacts[..|impacts| - 1])
      + (if impacts[|impacts| - 1].blocking then [impacts[|impacts| - 1].summary] else [])
  }

  function ChecksFor(kind: Kind, plan: ExecutionPlan, obligations: Option<Obligations>): seq<string> {
    match kind
    case CodeChanged => plan.expectedChanges
    case RelevantTestsRun | RelevantTestsPassed | IntegrationTestsRun | IntegrationTestsPassed
      | RequiredEvidencePresent => plan.checks
    case EnvironmentSatisfied => Prerequisites(plan, obligations)
    case PublishSatisfied => plan.publicationSteps
    case BuildSucceeded => []
    case DocumentationUpdated => if obligations.Some? then obligations.value.documentation else []
    case ExamplesUpdated => if obligations.Some? then obligations.value.examples else []
    case CiUpdated => if obligations.Some? then obligations.value.ci else []
    case CodegenUpdated => if obligations.Some? then obligations.value.codegen else []
    case WorkSurfaceComplete =>
      if obligations.Some? then obligations.value.surfaces + BlockingSummaries(obligations.value.impacts) else []
  }

  function EnvironmentFor(kind: Kind, plan: ExecutionPlan, obligations: Option<Obligations>): seq<string> {
    if kind.EnvironmentSatisfied? then Prerequisites(plan, obligations) else []
  }

  predicate DetailedAs(o: Obligation, plan: ExecutionPlan, obligations: Option<Obligations>) {
    && o.levels == LevelsFor(o.kind, plan) && o.checks == ChecksFor(o.kind, plan, obligations)
    && o.environment == EnvironmentFor(o.kind, plan, obligations)
  }

  ghost predicate Detailed(items: seq<Obligation>, plan: ExecutionPlan, obligations: Option<Obligations>) {
    forall i :: 0 <= i < |items| ==> DetailedAs(items[i], plan, obligations)
  }

  /** Exactly the demanded kinds, once each, all blocking, each with the levels, checks and
      environment its kind lists. */
  ghost predicate IsContractFor(items: seq<Obligation>, plan: ExecutionPlan, implementIntent: bool,
                                obligations: Option<Obligations>) {
    && WellKept(items, Prerequisites(plan, obligations)) && Detailed(items, plan, obligations)
    && forall kind :: kind in Kinds(items) <==> Demands(kind, plan, implementIntent, obligations)
  }

  /** The nested `add`: a kind already present is left alone. Ids are fresh, here consecutive. */
  method Add(items: seq<Obligation>, condition: bool, kind: Kind, levels: seq<Level>, checks: seq<string>,
             environment: seq<string>, ghost plan: ExecutionPlan, ghost obligations: Option<Obligations>)
    returns (r: seq<Obligation>)
    requires WellKept(items, Prerequisites(plan, obligations)) && Detailed(items, plan, obligations)
    requires condition ==> DetailedAs(Obligation(|items|, kind, true, levels, checks, environment), plan, obligations)
    ensures WellKept(r, Prerequisites(plan, obligations)) && Detailed(r, plan, obligations)
    ensures forall k :: k in Kinds(r) <==> k in Kinds(items) || (condition && k == kind)
  {
    hide Prerequisites, LevelsFor, BlockingSummaries;
    r := items;
    if condition && kind !in Kinds(items) {
      r := r + [Obligation(|items|, kind, true, levels, checks, environment)];
      assert forall i :: 0 <= i < |r| ==> r[i] == if i < |items| then items[i] else r[|items|];
      assert r[|items|].kind in Kinds(r);
      forall k | k in Kinds(items) ensures k in Kinds(r) {
        var i :| 0 <= i < |items| && items[i].kind == k;
        assert r[i].kind == k;
      }
    }
  }

  lemma EmptyItems(items: seq<Obligation>, prerequisites: seq<string>)
    ensures items == [] ==> WellKept(items, prerequisites)
    ensures items == [] ==> forall plan, obligations :: Detailed(items, plan, obligations)
    ensures Kinds(items) == {} <==> items == []
  {
    if items != [] { assert items[0].kind in Kinds(items); }
  }

  predicate DrawnFromPlan(kind: Kind) {
    kind.CodeChanged? || kind.BuildSucceeded? || kind.RelevantTestsRun? || kind.RelevantTestsPassed?
    || kind.IntegrationTestsRun? || kind.IntegrationTestsPassed? || kind.EnvironmentSatisfied?
  }

  predicate DrawnFromDiscovery(kind: Kind) {
    kind.DocumentationUpdated? || kind.ExamplesUpdated? || kind.CiUpdated? || kind.CodegenUpdated?
    || kind.WorkSurfaceComplete?
  }

  /** Lines 457-489: the obligations drawn from the plan and from its prerequisites. */
  method AddPlanItems(plan: ExecutionPlan, implementIntent: bool, obligations: Option<Obligations>)
    returns (items: seq<Obligation>)
    ensures WellKept(items, Prerequisites(plan, obligations)) && Detailed(items, plan, obligations)
    ensures forall kind :: kind in Kinds(items) <==>
              DrawnFromPlan(kind) && Demands(kind, plan, implementIntent, obligations)
  {
    var prerequisites := Prerequisites(plan, obligations);
    EmptyItems([], prerequisites);
    hide Kinds, WellKept, Detailed, HasLevel, Prerequisites;
    var checked, levels := plan.testLevels != [] || plan.checks != [], plan.testLevels;
    items := Add([], plan.Mutates() || implementIntent, CodeChanged, [], plan.expectedChanges, [], plan, obligations);
    items := Add(items, HasLevel(levels, BUILD_LEVELS), BuildSucceeded, levels, [], [], plan, obligations);
    items := Add(items, checked, RelevantTestsRun, levels, plan.checks, [], plan, obligations);
    items := Add(items, checked, RelevantTestsPassed, levels, plan.checks, [], plan, obligations);
    items := AddRuntimeItems(items, plan, prerequisites, obligations);
  }

  /** Lines 467-489. */
  method AddRuntimeItems(start: seq<Obligation>, plan: ExecutionPlan, prerequisites: seq<string>,
                         ghost obligations: Option<Obligations>)
    returns (items: seq<Obligation>)
    requires prerequisites == Prerequisites(plan, obligations)
    requires WellKept(start, prerequisites) && Detailed(start, plan, obligations)
    ensures WellKept(items, prerequisites) && Detailed(items, plan, obligations)
    ensures forall kind :: kind in Kinds(items) <==>
              kind in Kinds(start)
              || (kind in {IntegrationTestsRun, IntegrationTestsPassed, EnvironmentSatisfied}
                  && Demands(kind, plan, false, obligations))
  {
    hide Kinds, WellKept, Detailed, HasLevel, Prerequisites;
    var integration, levels := HasLevel(plan.testLevels, INTEGRATION_LEVELS), plan.testLevels;
    items := Add(start, integration, IntegrationTestsRun, levels, plan.checks, [], plan, obligations);
    items := Add(items, integration, IntegrationTestsPassed, levels, plan.checks, [], plan, obligations);
    items := Add(items, prerequisites != [] || HasLevel(levels, RUNTIME_LEVELS), EnvironmentSatisfied,
                 [], prerequisites, prerequisites, plan, obligations);
  }

  /** Lines 491-501: the obligations drawn from obligation discovery. */
  method AddDiscoveredItems(start: seq<Obligation>, plan: ExecutionPlan, implementIntent: bool, o: Obligations)
    returns (items: seq<Obligation>)
    requires WellKept(start, Prerequisites(plan, Some(o))) && Detailed(start, plan, Some(o))
    ensures WellKept(items, Prerequisites(plan, Some(o))) && Detailed(items, plan, Some(o))
    ensures forall kind :: kind in Kinds(items) <==>
              kind in Kinds(start) || (DrawnFromDiscovery(kind) && Demands(kind, plan, implementIntent, Some(o)))
  {
    hide Kinds, WellKept, Detailed, Prerequisites;
    items := Add(start, o.documentation != [], DocumentationUpdated, [], o.documentation, [], plan, Some(o));
    items := Add(items, o.examples != [], ExamplesUpdated, [], o.examples, [], plan, Some(o));
    items := Add(items, o.ci != [], CiUpdated, [], o.ci, [], plan, Some(o));
    items := Add(items, o.codegen != [], CodegenUpdated, [], o.codegen, [], plan, Some(o));
    items := Add(items, o.surfaces != [] || o.impacts != [], WorkSurfaceComplete, [],
                 o.surfaces + BlockingSummaries(o.impacts), [], plan, Some(o));
  }

  /** `build_acceptance_contract` */
  method BuildAcceptanceContract(plan: ExecutionPlan, implementIntent: bool, obligations: Option<Obligations>)
    returns (items: seq<Obligation>)
    ensures IsContractFor(items, plan, implementIntent, obligations)
  {
    hide WellKept, Detailed, Kinds, Prerequisites, HasLevel, DemandsNothingElse;
    items := AddPlanItems(plan, implementIntent, obligations);
    if obligations.Some? {
      items := AddDiscoveredItems(items, plan, implementIntent, obligations.value);
    }
    items := Add(items, plan.MustPublish(), PublishSatisfied, [], plan.publicationSteps, [], plan, obligations);
    EmptyItems(items, Prerequisites(plan, obligations));
    DemandsNothingElseIff(plan, implementIntent, obligations, Kinds(items));
    items := Add(items, items == [], RequiredEvidencePresent, [], plan.checks, [], plan, obligations);
  }

  lemma DemandsNothingElseIff(plan: ExecutionPlan, implementIntent: bool, obligations: Option<Obligations>,
                              kinds: set<Kind>)
    requires forall kind :: kind in kinds <==>
               !kind.RequiredEvidencePresent? && Demands(kind, plan, implementIntent, obligations)
    ensures kinds == {} <==> Demands(RequiredEvidencePresent, plan, implementIntent, obligations)
  {
    hide Prerequisites;
    if kinds == {} {
      assert CodeChanged !in kinds && RelevantTestsRun !in kinds && EnvironmentSatisfied !in kinds;
      assert PublishSatisfied !in kinds && DocumentationUpdated !in kinds && ExamplesUpdated !in kinds;
      assert CiUpdated !in kinds && CodegenUpdated !in kinds && WorkSurfaceComplete !in kinds;
    } else {
      var kind :| kind in kinds;
    }
  }
}
