/** What verdicts and acceptance come down to in the raw results: which tests, commands, verifier lists
    and blockers decide them. Levels, roles and words are spelled out here once more, apart from the
    tables the evaluation reads. */
module Grounds {
  import opened Prelude
  import opened Text
  import opened Evidence
  import opened Acceptance
  import opened Checks
  import opened Evaluation
  import Lifecycle

  // ----- looking at the results -----

  predicate From(r: Results, e: StructuredEvidence) {
    || (r.execution.Some? && e == r.execution.value.evidence)
    || (r.verification.Some? && e == r.verification.value.evidence)
    || (r.publish.Some? && e == r.publish.value.evidence)
  }

  /** Some test of these levels, or any test at all for no level, has one of these statuses. */
  ghost predicate TestSays(r: Results, levels: set<TestLevel>, words: set<Word>) {
    exists e, k :: From(r, e) && 0 <= k < |e.tests| && e.tests[k].status in words
                   && (levels == {} || (e.tests[k].level.Some? && e.tests[k].level.value in levels))
  }

  ghost predicate CommandExits(r: Results, roles: set<CommandRole>, clean: bool) {
    exists e, k :: From(r, e) && 0 <= k < |e.commands|
                   && e.commands[k].exitCode.Some? && (e.commands[k].exitCode.value == 0 <==> clean)
                   && (roles == {} || (e.commands[k].role.Some? && e.commands[k].role.value in roles))
  }

  ghost predicate Good(r: Results, levels: set<TestLevel>, roles: set<CommandRole>) {
    || TestSays(r, levels, {PassedWord, SuccessWord, SucceededWord, OkWord})
    || CommandExits(r, roles, true)
    || (r.verification.Some? && (r.verification.value.performedLevels != [] || r.verification.value.checksPassed != []))
  }

  ghost predicate Bad(r: Results, levels: set<TestLevel>, roles: set<CommandRole>) {
    || TestSays(r, levels, {FailedWord, BlockedWord, ErrorWord})
    || CommandExits(r, roles, false)
    || (r.verification.Some? && r.verification.value.checksFailed != [])
  }

  /** Something passed and nothing failed. */
  ghost predicate Clean(r: Results, levels: set<TestLevel>, roles: set<CommandRole>) {
    Good(r, levels, roles) && !Bad(r, levels, roles)
  }

  /** The environment is in the way: a blocker of one of three kinds, or the verifier misses setup, one
      of three runtime levels, or an obligation for want of an environment. */
  ghost predicate Obstructed(r: Results) {
    || (exists e, k :: From(r, e) && 0 <= k < |e.blockers|
                       && e.blockers[k].kind in {MissingEnvironmentDependency, MissingRuntimePrerequisite,
                                                 IntegrationEnvironmentUnavailable})
    || (r.verification.Some? &&
          var v := r.verification.value;
          || v.missingSetup != []
          || (exists k :: 0 <= k < |v.missingLevels| && v.missingLevels[k] in {IntegrationTests, SmokeTests, E2eTests})
          || (exists k :: 0 <= k < |v.obligationResults| && v.obligationResults[k].environmentBlocker))
  }

  ghost predicate Unblocked(r: Results) {
    forall e :: From(r, e) ==> e.blockers == []
  }

  /** Setup is shown to have worked: it was run cleanly, or a runtime probe was or passed; the verifier
      performed setup or passed such an obligation; or nothing is blocked and the runtime checks are
      clean. */
  ghost predicate SetupShown(r: Results) {
    || CommandExits(r, {ExecutedSetup, ExecutedRuntimeProbe}, true)
    || TestSays(r, {RuntimeProbeLevel}, {PassedWord, SuccessWord, SucceededWord, OkWord})
    || (r.verification.Some? &&
          var v := r.verification.value;
          || v.setupPerformed != []
          || (exists k :: 0 <= k < |v.obligationResults| && v.obligationResults[k].kind.EnvironmentSatisfied?
                          && v.obligationResults[k].status.Passed? && !v.obligationResults[k].environmentBlocker))
    || (Unblocked(r) && Clean(r, {IntegrationLevel, SmokeLevel, RuntimeProbeLevel},
                              {IntegrationTestCommand, SmokeTestCommand, ExecutedRuntimeProbe}))
  }

  ghost predicate IntegrationClean(r: Results) {
    Clean(r, {IntegrationLevel, SmokeLevel}, {IntegrationTestCommand, SmokeTestCommand})
  }

  /** What was to be committed and pushed is; with nothing of the kind asked for, publication went well. */
  predicate Published(r: Results) {
    if r.verification.Some? && (r.verification.value.commitRequired || r.verification.value.pushRequired) then
      && (r.verification.value.commitRequired ==> r.verification.value.commitDone)
      && (r.verification.value.pushRequired ==> r.verification.value.pushDone)
    else r.publish.Some? && r.publish.value.ok
  }

  predicate Changed(e: StructuredEvidence) { e.filesChanged != [] || e.mutationChanged }

  /** The verifier passed or lists a passed check, or the execution's evidence bundle is complete. */
  predicate AnyEvidence(r: Results) {
    || (r.verification.Some? && (r.verification.value.passed || r.verification.value.checksPassed != []))
    || (r.execution.Some? && r.execution.value.bundleOk == Some(true))
  }

  // ----- the scan over the results finds exactly that -----

  lemma EvidencesAreFrom(r: Results, e: StructuredEvidence)
    ensures From(r, e) <==> exists k :: 0 <= k < |r.Evidences()| && r.Evidences()[k] == e
  {
    var es := r.Evidences();
    var a, b := if r.execution.Some? then 1 else 0, if r.verification.Some? then 1 else 0;
    assert r.execution.Some? ==> es[0] == r.execution.value.evidence;
    assert r.verification.Some? ==> es[a] == r.verification.value.evidence;
    assert r.publish.Some? ==> es[a + b] == r.publish.value.evidence;
  }

  lemma AllEvidences(r: Results)
    ensures forall k :: 0 <= k < |r.Evidences()| ==> From(r, r.Evidences()[k])
    ensures forall e :: From(r, e) ==> exists k :: 0 <= k < |r.Evidences()| && r.Evidences()[k] == e
  {
    hide Results.Evidences, From;
    forall e: StructuredEvidence
      ensures From(r, e) <==> exists k :: 0 <= k < |r.Evidences()| && r.Evidences()[k] == e
    {
      EvidencesAreFrom(r, e);
    }
  }

  lemma SaysMeans(r: Results, terms: set<Level>, words: set<Word>, ok: bool)
    requires forall w: Word :: w in words <==> if ok then w.Passes() else w.Fails()
    ensures (exists w: Word :: w in words && Reports(r, terms, w)) <==>
            || TestSays(r, TargetLevels(terms), words)
            || CommandExits(r, TargetRoles(terms), ok)
            || (exists w: Word :: w in words && r.verification.Some? && VerifierReports(r.verification.value, w))
  {
    hide TargetLevels, TargetRoles, VerifierReports, From, Results.Evidences;
    AllEvidences(r);
    var levels, roles := TargetLevels(terms), TargetRoles(terms);
    if TestSays(r, levels, words) {
      var e, k :| From(r, e) && 0 <= k < |e.tests| && e.tests[k].status in words
                  && (levels == {} || (e.tests[k].level.Some? && e.tests[k].level.value in levels));
      assert TestReports(e, levels, e.tests[k].status);
      assert Reports(r, terms, e.tests[k].status);
    }
    if CommandExits(r, roles, ok) {
      var e, k :| From(r, e) && 0 <= k < |e.commands|
                  && e.commands[k].exitCode.Some? && (e.commands[k].exitCode.value == 0 <==> ok)
                  && (roles == {} || (e.commands[k].role.Some? && e.commands[k].role.value in roles));
      var w := ExitWord(e.commands[k].exitCode.value);
      assert CommandReports(e, roles, w) && w in words;
      assert Reports(r, terms, w);
    }
  }

  const GOOD := {PassedWord, SuccessWord, SucceededWord, OkWord}
  const BAD := {FailedWord, BlockedWord, ErrorWord}

  lemma ScanMeans(r: Results, terms: set<Level>, levels: set<TestLevel>, roles: set<CommandRole>)
    requires levels == TargetLevels(terms) && roles == TargetRoles(terms)
    ensures RanFor(r, terms) <==> Good(r, levels, roles) || Bad(r, levels, roles)
    ensures PassedFor(r, terms) <==> Clean(r, levels, roles)
    ensures SomethingFails(r, terms) <==> Bad(r, levels, roles)
  {
    hide TargetLevels, TargetRoles, Reports, TestSays, CommandExits;
    SaysMeans(r, terms, GOOD, true);
    SaysMeans(r, terms, BAD, false);
    if r.verification.Some? {
      var v := r.verification.value;
      assert PassedWord in GOOD && FailedWord in BAD;
      assert VerifierReports(v, PassedWord) <==> v.performedLevels != [] || v.checksPassed != [];
      assert VerifierReports(v, FailedWord) <==> v.checksFailed != [];
    }
    assert forall w: Word :: w.Passes() <==> w in GOOD;
    assert forall w: Word :: w.Fails() <==> w in BAD;
  }

  lemma AbsenceMeans(r: Results, terms: set<Level>, levels: set<TestLevel>)
    requires levels == TargetLevels(terms)
    ensures (exists w: Word :: w.Absent() && Reports(r, terms, w)) <==>
            || TestSays(r, levels, {MissingWord, NotRunWord, UnknownWord})
            || (r.verification.Some?
                && (r.verification.value.missingLevels != [] || r.verification.value.missingEvidence != []))
  {
    hide TargetLevels, TargetRoles, From, Results.Evidences;
    AllEvidences(r);
    var absent := {MissingWord, NotRunWord, UnknownWord};
    if TestSays(r, levels, absent) {
      var e, k :| From(r, e) && 0 <= k < |e.tests| && e.tests[k].status in absent
                  && (levels == {} || (e.tests[k].level.Some? && e.tests[k].level.value in levels));
      assert TestReports(e, levels, e.tests[k].status);
      assert Reports(r, terms, e.tests[k].status);
    }
    if r.verification.Some? && (r.verification.value.missingLevels != [] || r.verification.value.missingEvidence != []) {
      assert Reports(r, terms, MissingWord);
    }
    forall w: Word, k | w.Absent() && 0 <= k < |r.Evidences()| && TestReports(r.Evidences()[k], levels, w)
      ensures TestSays(r, levels, absent)
    {
    }
  }

  /** The three flags of a check run over any terms: something ran, nothing but passes, and something
      failed or, with nothing run, something is missing. */
  lemma CheckFlagsMean(r: Results, terms: set<Level>)
    ensures var levels, roles := LevelsOf(terms), RolesOf(terms);
            var ran := Good(r, levels, roles) || Bad(r, levels, roles);
            && (RanFor(r, terms) <==> ran) && (PassedFor(r, terms) <==> Clean(r, levels, roles))
            && ((exists w: Word :: w.Fails() && Reports(r, terms, w))
                || (!RanFor(r, terms) && exists w: Word :: w.Absent() && Reports(r, terms, w))
                <==>
                Bad(r, levels, roles)
                || (!ran && (TestSays(r, levels, {MissingWord, NotRunWord, UnknownWord})
                             || (r.verification.Some? && (r.verification.value.missingLevels != []
                                                          || r.verification.value.missingEvidence != [])))))
  {
    TermsName(terms);
    hide TargetLevels, TargetRoles, LevelsOf, RolesOf, Reports, Good, Bad, TestSays;
    ScanMeans(r, terms, LevelsOf(terms), RolesOf(terms));
    AbsenceMeans(r, terms, LevelsOf(terms));
  }

  /** The required levels a test of some level stands for. */
  function StandsFor(level: TestLevel): set<Level> {
    match level
    case BuildLevel => {BuildTests, CompileTests}
    case UnitLevel => {UnitTests}
    case IntegrationLevel => {IntegrationTests}
    case SmokeLevel => {SmokeTests, E2eTests, EndToEndTests}
    case RuntimeProbeLevel => {RuntimeTests, RuntimeProof}
    case OtherLevel => {}
  }

  /** A command role stands for what tests of the corresponding level do. */
  function LevelOfRole(role: CommandRole): TestLevel {
    match role
    case BuildCommand => BuildLevel
    case UnitTestCommand => UnitLevel
    case IntegrationTestCommand => IntegrationLevel
    case SmokeTestCommand => SmokeLevel
    case ExecutedRuntimeProbe => RuntimeProbeLevel
    case ObservedSetupPath | ObservedRuntimeProbe | ExecutedSetup | OtherCommand => OtherLevel
  }

  function LevelsOf(terms: set<Level>): set<TestLevel> {
    set level: TestLevel | StandsFor(level) * terms != {}
  }

  function RolesOf(terms: set<Level>): set<CommandRole> {
    set role: CommandRole | StandsFor(LevelOfRole(role)) * terms != {}
  }

  lemma TermsName(terms: set<Level>)
    ensures TargetLevels(terms) == LevelsOf(terms) && TargetRoles(terms) == RolesOf(terms)
  {
    forall level: TestLevel ensures level in TargetLevels(terms) <==> level in LevelsOf(terms) {
      assert StandsFor(level) * terms != {} <==> exists t :: t in StandsFor(level) && t in terms by {
        MeetIff(StandsFor(level), terms);
      }
    }
    forall role: CommandRole ensures role in TargetRoles(terms) <==> role in RolesOf(terms) {
      MeetIff(StandsFor(LevelOfRole(role)), terms);
    }
  }

  lemma MeetIff(a: set<Level>, b: set<Level>)
    ensures a * b != {} <==> exists t :: t in a && t in b
  {
    if t :| t in a && t in b { assert t in a * b; }
  }

  /** Every test and command counts when no terms are given; otherwise those of the levels and roles
      the terms name. */
  lemma AnyMeans(r: Results)
    ensures RanFor(r, {}) <==> Good(r, {}, {}) || Bad(r, {}, {})
    ensures PassedFor(r, {}) <==> Clean(r, {}, {})
    ensures SomethingFails(r, {}) <==> Bad(r, {}, {})
  {
    ScanMeans(r, {}, {}, {});
  }

  lemma BuildMeans(r: Results)
    ensures RanFor(r, COMPILE_TERMS) <==> Good(r, {BuildLevel}, {BuildCommand}) || Bad(r, {BuildLevel}, {BuildCommand})
    ensures PassedFor(r, COMPILE_TERMS) <==> Clean(r, {BuildLevel}, {BuildCommand})
    ensures SomethingFails(r, COMPILE_TERMS) <==> Bad(r, {BuildLevel}, {BuildCommand})
  {
    ScanMeans(r, COMPILE_TERMS, {BuildLevel}, {BuildCommand});
  }

  lemma IntegrationMeans(r: Results)
    ensures var levels, roles := {IntegrationLevel, SmokeLevel}, {IntegrationTestCommand, SmokeTestCommand};
            && (RanFor(r, INTEGRATION_TERMS) <==> Good(r, levels, roles) || Bad(r, levels, roles))
            && (PassedFor(r, INTEGRATION_TERMS) <==> Clean(r, levels, roles))
            && (SomethingFails(r, INTEGRATION_TERMS) <==> Bad(r, levels, roles))
  {
    ScanMeans(r, INTEGRATION_TERMS, {IntegrationLevel, SmokeLevel}, {IntegrationTestCommand, SmokeTestCommand});
  }

  lemma BlockedMeans(r: Results)
    ensures EnvironmentBlocked(r) <==> Obstructed(r)
    ensures AnyBlocker(r) <==> !Unblocked(r)
  {
    hide From, Results.Evidences;
    AllEvidences(r);
    forall k | 0 <= k < |r.Evidences()|
      ensures BlocksEnvironment(r.Evidences()[k]) ==> Obstructed(r)
    {
    }
    if exists e, k :: From(r, e) && 0 <= k < |e.blockers| && e.blockers[k].kind.Environmental() {
      var e, k :| From(r, e) && 0 <= k < |e.blockers| && e.blockers[k].kind.Environmental();
      assert BlocksEnvironment(e);
    }
  }

  /** A required setup counts as proved exactly when it is shown to have worked. */
  lemma SetupMeans(o: Obligation, r: Results)
    requires o.kind.EnvironmentSatisfied? && (o.environment != [] || o.checks != [])
    ensures PrerequisitesProved(o, r) <==> SetupShown(r)
  {
    hide From, Results.Evidences, TargetLevels, TargetRoles, Reports;
    AllEvidences(r);
    BlockedMeans(r);
    RuntimeMeans(r);
    hide PassedFor, Clean, AnyBlocker, Unblocked;
    assert (exists k :: 0 <= k < |r.Evidences()| && ProvesSetup(r.Evidences()[k])) <==>
           CommandExits(r, {ExecutedSetup, ExecutedRuntimeProbe}, true) || TestSays(r, {RuntimeProbeLevel}, GOOD) by {
      SetupIsSeen(r);
    }
  }

  lemma RuntimeMeans(r: Results)
    ensures PassedFor(r, {IntegrationTests, SmokeTests, E2eTests, EndToEndTests, RuntimeTests, RuntimeProof}) <==>
            Clean(r, {IntegrationLevel, SmokeLevel, RuntimeProbeLevel},
                  {IntegrationTestCommand, SmokeTestCommand, ExecutedRuntimeProbe})
  {
    ScanMeans(r, {IntegrationTests, SmokeTests, E2eTests, EndToEndTests, RuntimeTests, RuntimeProof},
              {IntegrationLevel, SmokeLevel, RuntimeProbeLevel},
              {IntegrationTestCommand, SmokeTestCommand, ExecutedRuntimeProbe});
  }

  lemma SetupIsSeen(r: Results)
    ensures (exists k :: 0 <= k < |r.Evidences()| && ProvesSetup(r.Evidences()[k])) <==>
            CommandExits(r, {ExecutedSetup, ExecutedRuntimeProbe}, true) || TestSays(r, {RuntimeProbeLevel}, GOOD)
  {
    hide From, Results.Evidences;
    AllEvidences(r);
    forall e: StructuredEvidence | From(r, e)
      ensures ProvesSetup(e) ==>
              CommandExits(r, {ExecutedSetup, ExecutedRuntimeProbe}, true) || TestSays(r, {RuntimeProbeLevel}, GOOD)
    {
    }
    if CommandExits(r, {ExecutedSetup, ExecutedRuntimeProbe}, true) {
      var e, k :| From(r, e) && 0 <= k < |e.commands| && e.commands[k].exitCode == Some(0)
                  && e.commands[k].role.Some? && e.commands[k].role.value in {ExecutedSetup, ExecutedRuntimeProbe};
      assert ProvesSetup(e);
    }
    if TestSays(r, {RuntimeProbeLevel}, GOOD) {
      var e, k :| From(r, e) && 0 <= k < |e.tests| && e.tests[k].status in GOOD
                  && e.tests[k].level.Some? && e.tests[k].level.value in {RuntimeProbeLevel};
      assert ProvesSetup(e);
    }
  }

  // ----- verdicts -----

  /** A verdict on checks: failed as soon as one failed, passed if one passed, else not run. */
  ghost function ChecksVerdict(r: Results, levels: set<TestLevel>, roles: set<CommandRole>): ResultStatus {
    if Bad(r, levels, roles) then Failed else if Good(r, levels, roles) then Passed else NotRun
  }

  ghost function RunVerdict(r: Results, levels: set<TestLevel>, roles: set<CommandRole>): ResultStatus {
    if Bad(r, levels, roles) || Good(r, levels, roles) then Passed else NotRun
  }

  /** The verdict on every kind of obligation, in the raw results. Five kinds are blocked whenever the
      environment is in the way. */
  lemma VerdictMeans(o: Obligation, r: Results, named: Obligation -> bool)
    ensures var v := Verdict(o, r, named);
            var runtime := {IntegrationLevel, SmokeLevel};
            var runtimeRoles := {IntegrationTestCommand, SmokeTestCommand};
            var needy := {EnvironmentSatisfied, IntegrationTestsRun, IntegrationTestsPassed, RelevantTestsRun,
                          RelevantTestsPassed};
            && (o.kind in needy && Obstructed(r) ==> v == Blocked)
            && (o.kind == BuildSucceeded ==> v == ChecksVerdict(r, {BuildLevel}, {BuildCommand}))
            && (!Obstructed(r) ==>
                  && (o.kind == RelevantTestsRun ==> v == RunVerdict(r, {}, {}))
                  && (o.kind == RelevantTestsPassed ==> v == ChecksVerdict(r, {}, {}))
                  && (o.kind == IntegrationTestsRun ==> v == RunVerdict(r, runtime, runtimeRoles))
                  && (o.kind == IntegrationTestsPassed ==> v == ChecksVerdict(r, runtime, runtimeRoles))
                  && (o.kind == EnvironmentSatisfied && (o.environment != [] || o.checks != []) ==>
                        v == if SetupShown(r) then Passed else if Unblocked(r) then Failed else Blocked)
                  && (o.kind == EnvironmentSatisfied && o.environment == [] && o.checks == [] ==> v == Passed))
            && (o.kind == CodeChanged ==>
                  (v == Passed <==> r.execution.Some? && Changed(r.execution.value.evidence)) && (v == Passed || v == Failed))
            && (o.kind == PublishSatisfied ==> v == if Published(r) then Passed else Failed)
            && (o.kind == RequiredEvidencePresent ==> v == if AnyEvidence(r) then Passed else Failed)
            && (o.kind in {DocumentationUpdated, ExamplesUpdated, CiUpdated, CodegenUpdated, WorkSurfaceComplete} ==>
                  v == if named(o) then Passed else Failed)
  {
    AnyMeans(r);
    BuildMeans(r);
    IntegrationMeans(r);
    BlockedMeans(r);
    if o.kind.EnvironmentSatisfied? && (o.environment != [] || o.checks != []) { SetupMeans(o, r); }
    hide PassedFor, RanFor, SomethingFails, Good, Bad, EnvironmentBlocked, Obstructed, AnyBlocker, Unblocked, SetupShown;
  }

  // ----- acceptance -----

  predicate Wants(levels: seq<Level>, wanted: set<Level>) {
    exists k :: 0 <= k < |levels| && levels[k] in wanted
  }

  /** The text search finds evidence for the obligation that lists these items. */
  ghost predicate Found(items: seq<Obligation>, kind: Kind, list: seq<string>, named: Obligation -> bool) {
    exists i :: 0 <= i < |items| && items[i].kind == kind && items[i].checks == list && named(items[i])
  }

  predicate Publishes(plan: ExecutionPlan) {
    plan.requireCommit || plan.requirePush || plan.createsPullRequest || plan.publicationSteps != []
  }

  /** What the plan, the intent and the discovered obligations ask of the raw results. */
  ghost predicate Earned(plan: ExecutionPlan, implementIntent: bool, obligations: Option<Obligations>,
                         items: seq<Obligation>, r: Results, named: Obligation -> bool) {
    && EarnedBefore(plan, implementIntent, obligations, items, r, named)
    && (Publishes(plan) ==> Published(r))
    && (AsksNothing(plan, implementIntent, obligations) ==> AnyEvidence(r))
  }

  /** All of it but publication. */
  ghost predicate EarnedBefore(plan: ExecutionPlan, implementIntent: bool, obligations: Option<Obligations>,
                         items: seq<Obligation>, r: Results, named: Obligation -> bool) {
    var runtime := Wants(plan.testLevels, {IntegrationTests, SmokeTests, E2eTests, EndToEndTests, RuntimeProof, RuntimeTests});
    var setup := Prerequisites(plan, obligations);
    && (plan.requiresMutation || plan.mustChangeWorld || implementIntent ==>
          r.execution.Some? && Changed(r.execution.value.evidence))
    && (Wants(plan.testLevels, {BuildTests, CompileTests}) ==> Clean(r, {BuildLevel}, {BuildCommand}))
    && (plan.testLevels != [] || plan.checks != [] ==> Clean(r, {}, {}) && !Obstructed(r))
    && (Wants(plan.testLevels, {IntegrationTests, SmokeTests, E2eTests, EndToEndTests}) ==>
          IntegrationClean(r) && !Obstructed(r))
    && (runtime || setup != [] ==> !Obstructed(r) && (setup == [] || SetupShown(r)))
    && (obligations.Some? ==> EarnedDiscovered(obligations.value, items, named))
  }

  predicate AsksNothing(plan: ExecutionPlan, implementIntent: bool, obligations: Option<Obligations>) {
    && !plan.requiresMutation && !plan.mustChangeWorld && !implementIntent
    && !plan.requireCommit && !plan.requirePush && !plan.createsPullRequest && plan.publicationSteps == []
    && plan.testLevels == [] && plan.checks == [] && Prerequisites(plan, obligations) == []
    && (obligations.Some? ==>
          var o := obligations.value;
          o.documentation == o.examples == o.ci == o.codegen == o.surfaces == [] && o.impacts == [])
  }

  ghost predicate EarnedDiscovered(o: Obligations, items: seq<Obligation>, named: Obligation -> bool) {
    && (o.documentation != [] ==> Found(items, DocumentationUpdated, o.documentation, named))
    && (o.examples != [] ==> Found(items, ExamplesUpdated, o.examples, named))
    && (o.ci != [] ==> Found(items, CiUpdated, o.ci, named))
    && (o.codegen != [] ==> Found(items, CodegenUpdated, o.codegen, named))
    && (o.surfaces != [] || o.impacts != [] ==>
          Found(items, WorkSurfaceComplete, o.surfaces + BlockingSummaries(o.impacts), named))
  }

  /** What one kind of obligation asks of the raw results. */
  ghost predicate EarnedKind(kind: Kind, plan: ExecutionPlan, obligations: Option<Obligations>, items: seq<Obligation>,
                             r: Results, named: Obligation -> bool) {
    match kind
    case CodeChanged => r.execution.Some? && Changed(r.execution.value.evidence)
    case BuildSucceeded => Clean(r, {BuildLevel}, {BuildCommand})
    case RelevantTestsRun => (Good(r, {}, {}) || Bad(r, {}, {})) && !Obstructed(r)
    case RelevantTestsPassed => Clean(r, {}, {}) && !Obstructed(r)
    case IntegrationTestsRun =>
      !Obstructed(r)
      && (Good(r, {IntegrationLevel, SmokeLevel}, {IntegrationTestCommand, SmokeTestCommand})
          || Bad(r, {IntegrationLevel, SmokeLevel}, {IntegrationTestCommand, SmokeTestCommand}))
    case IntegrationTestsPassed => IntegrationClean(r) && !Obstructed(r)
    case EnvironmentSatisfied => !Obstructed(r) && (Prerequisites(plan, obligations) == [] || SetupShown(r))
    case PublishSatisfied => Published(r)
    case RequiredEvidencePresent => AnyEvidence(r)
    case DocumentationUpdated | ExamplesUpdated | CiUpdated | CodegenUpdated | WorkSurfaceComplete =>
      Found(items, kind, ChecksFor(kind, plan, obligations), named)
  }

  lemma ItemMeans(k: nat, plan: ExecutionPlan, implementIntent: bool, obligations: Option<Obligations>,
                  items: seq<Obligation>, r: Results, named: Obligation -> bool)
    requires IsContractFor(items, plan, implementIntent, obligations) && k < |items|
    ensures Satisfies(items[k], r, named) <==> EarnedKind(items[k].kind, plan, obligations, items, r, named)
  {
    assert DetailedAs(items[k], plan, obligations);
    assert forall i :: 0 <= i < |items| && items[i].kind == items[k].kind ==> i == k;
    PassesIffSatisfied(items[k], r, named);
    VerdictMeans(items[k], r, named);
    hide Verdict, Satisfies, Good, Bad, Obstructed, SetupShown, Unblocked, Demands, Prerequisites, Published, AnyEvidence,
         BlockingSummaries;
  }

  ghost predicate Settles(kind: Kind, plan: ExecutionPlan, implementIntent: bool, obligations: Option<Obligations>,
                          items: seq<Obligation>, r: Results, named: Obligation -> bool) {
    Demands(kind, plan, implementIntent, obligations) ==> EarnedKind(kind, plan, obligations, items, r, named)
  }

  lemma BeforeByKind(plan: ExecutionPlan, implementIntent: bool, obligations: Option<Obligations>, items: seq<Obligation>,
                     r: Results, named: Obligation -> bool)
    ensures EarnedBefore(plan, implementIntent, obligations, items, r, named) <==>
            forall kind :: kind != PublishSatisfied && kind != RequiredEvidencePresent ==>
                           Settles(kind, plan, implementIntent, obligations, items, r, named)
  {
    hide Good, Bad, Obstructed, SetupShown, Prerequisites, Published, AnyEvidence, Found, BlockingSummaries, HasLevel, Wants,
         Changed, Publishes, AsksNothing, DemandsNothingElse;
    WantsIsHasLevel();
    if forall kind :: kind != PublishSatisfied && kind != RequiredEvidencePresent ==>
                      Settles(kind, plan, implementIntent, obligations, items, r, named) {
      ghost var all := set kind: Kind | Settles(kind, plan, implementIntent, obligations, items, r, named);
      assert {CodeChanged, BuildSucceeded, RelevantTestsPassed, IntegrationTestsPassed, EnvironmentSatisfied} <= all;
      assert {DocumentationUpdated, ExamplesUpdated, CiUpdated, CodegenUpdated, WorkSurfaceComplete} <= all;
    }
  }

  lemma EarnedByKind(plan: ExecutionPlan, implementIntent: bool, obligations: Option<Obligations>, items: seq<Obligation>,
                     r: Results, named: Obligation -> bool)
    ensures Earned(plan, implementIntent, obligations, items, r, named) <==>
            forall kind :: Settles(kind, plan, implementIntent, obligations, items, r, named)
  {
    BeforeByKind(plan, implementIntent, obligations, items, r, named);
    assert Settles(PublishSatisfied, plan, implementIntent, obligations, items, r, named) <==>
           (Publishes(plan) ==> Published(r));
    assert Settles(RequiredEvidencePresent, plan, implementIntent, obligations, items, r, named) <==>
           (AsksNothing(plan, implementIntent, obligations) ==> AnyEvidence(r));
    hide EarnedBefore, Settles, Published, AnyEvidence, AsksNothing;
  }

  lemma WantsIsHasLevel()
    ensures forall levels, wanted :: HasLevel(levels, wanted) == Wants(levels, wanted)
  {
  }

  /** A contract is accepted exactly when everything the plan, the intent and the discovered obligations
      ask for is borne out by the raw results. */
  lemma AcceptedIffEarned(d: Decision, plan: ExecutionPlan, implementIntent: bool, obligations: Option<Obligations>,
                          items: seq<Obligation>, r: Results, named: Obligation -> bool)
    requires IsContractFor(items, plan, implementIntent, obligations) && Evaluates(d, items, r, named)
    requires r.execution.Some?
    ensures d.accepted <==> Earned(plan, implementIntent, obligations, items, r, named)
  {
    hide Earned, EarnedKind, Satisfies, Evaluates, Demands, Prerequisites, Detailed;
    Lifecycle.ContractsAreNotEmpty(items, plan, implementIntent, obligations);
    Lifecycle.PublishReadyIff(d, items, Prerequisites(plan, obligations), r, named);
    forall k | 0 <= k < |items|
      ensures Satisfies(items[k], r, named) <==> EarnedKind(items[k].kind, plan, obligations, items, r, named)
      ensures Demands(items[k].kind, plan, implementIntent, obligations)
    {
      assert items[k].kind in Kinds(items);
      ItemMeans(k, plan, implementIntent, obligations, items, r, named);
    }
    EarnedByKind(plan, implementIntent, obligations, items, r, named);
    forall kind: Kind
      ensures Settles(kind, plan, implementIntent, obligations, items, r, named) <==>
              forall k :: 0 <= k < |items| && items[k].kind == kind ==> Satisfies(items[k], r, named)
    {
      assert kind in Kinds(items) <==> Demands(kind, plan, implementIntent, obligations);
    }
    assert forall k :: 0 <= k < |items| ==>
             Settles(items[k].kind, plan, implementIntent, obligations, items, r, named) ==> Satisfies(items[k], r, named);
  }

  lemma EarnedIsClean(plan: ExecutionPlan, implementIntent: bool, obligations: Option<Obligations>,
                      items: seq<Obligation>, r: Results, named: Obligation -> bool)
    requires Earned(plan, implementIntent, obligations, items, r, named)
    ensures Wants(plan.testLevels, {BuildTests, CompileTests}) ==> Clean(r, {BuildLevel}, {BuildCommand})
    ensures Wants(plan.testLevels, {IntegrationTests, SmokeTests, E2eTests, EndToEndTests}) ==> IntegrationClean(r)
    ensures Prerequisites(plan, obligations) != [] ==> SetupShown(r)
  {
  }

  /** The work surface lists the summaries of the blocking impacts. */
  lemma {:induction false} BlockingSummariesAre(impacts: seq<Impact>, x: string)
    ensures x in BlockingSummaries(impacts) <==>
            exists k :: 0 <= k < |impacts| && impacts[k].blocking && impacts[k].summary == x
  {
    if impacts != [] {
      BlockingSummariesAre(impacts[..|impacts| - 1], x);
      assert forall k :: 0 <= k < |impacts| - 1 ==> impacts[..|impacts| - 1][k] == impacts[k];
    }
  }

  // ----- publication -----

  lemma AllButPublishIsEarned(plan: ExecutionPlan, implementIntent: bool, obligations: Option<Obligations>,
                              items: seq<Obligation>, r: Results, named: Obligation -> bool)
    requires IsContractFor(items, plan, implementIntent, obligations) && Publishes(plan)
    ensures Lifecycle.AllButPublishSatisfied(items, r, named) <==>
            EarnedBefore(plan, implementIntent, obligations, items, r, named)
  {
    hide EarnedBefore, EarnedKind, Satisfies, Demands, Prerequisites, Detailed;
    forall k | 0 <= k < |items|
      ensures Satisfies(items[k], r, named) <==> EarnedKind(items[k].kind, plan, obligations, items, r, named)
    {
      ItemMeans(k, plan, implementIntent, obligations, items, r, named);
    }
    BeforeByKind(plan, implementIntent, obligations, items, r, named);
    assert !Demands(RequiredEvidencePresent, plan, implementIntent, obligations) by { PublishingAsksSomething(plan); }
    forall kind: Kind
      ensures Settles(kind, plan, implementIntent, obligations, items, r, named) <==>
              forall k :: 0 <= k < |items| && items[k].kind == kind ==> Satisfies(items[k], r, named)
    {
      assert kind in Kinds(items) <==> Demands(kind, plan, implementIntent, obligations);
    }
    assert forall k :: 0 <= k < |items| ==>
             Settles(items[k].kind, plan, implementIntent, obligations, items, r, named) ==> Satisfies(items[k], r, named);
  }

  lemma PublishingAsksSomething(plan: ExecutionPlan)
    requires Publishes(plan)
    ensures forall implementIntent, obligations :: !Demands(RequiredEvidencePresent, plan, implementIntent, obligations)
    ensures plan.MustPublish()
  {
  }

  /** The checks that must be clean whatever acceptance says: those of the required levels when one of
      them concerns the runtime, else all there are. */
  ghost predicate MandatoryClean(plan: ExecutionPlan, r: Results) {
    if Wants(plan.testLevels, {IntegrationTests, SmokeTests, E2eTests, EndToEndTests, RuntimeProof, RuntimeTests}) then
      var terms := set k | 0 <= k < |plan.testLevels| :: plan.testLevels[k];
      Clean(r, LevelsOf(terms), RolesOf(terms))
    else Clean(r, {}, {})
  }

  lemma MandatoryMeans(plan: ExecutionPlan, r: Results)
    ensures PassedFor(r, Lifecycle.VerificationTerms(plan)) <==> MandatoryClean(plan, r)
    ensures Lifecycle.MandatoryVerification(plan) <==>
            plan.requiresMutation || plan.mustChangeWorld || plan.expectedChanges != []
            || Wants(plan.testLevels, {IntegrationTests, SmokeTests, E2eTests, EndToEndTests, RuntimeProof, RuntimeTests})
  {
    WantsIsHasLevel();
    var terms := set k | 0 <= k < |plan.testLevels| :: plan.testLevels[k];
    assert terms == set l | l in plan.testLevels;
    TermsName(terms);
    hide TargetLevels, TargetRoles, LevelsOf, RolesOf, Clean, PassedFor, HasLevel, Wants;
    ScanMeans(r, terms, LevelsOf(terms), RolesOf(terms));
    AnyMeans(r);
  }

  /** In the raw results, exactly when a run goes on to publish after acceptance: publication is due and
      not done, everything else is earned, the execution is usable with nothing but deferred blockers, the
      environment is not in the way, and, where publication already counts as done, the mandatory checks
      are clean. */
  lemma PublishGateMeans(plan: ExecutionPlan, implementIntent: bool, obligations: Option<Obligations>,
                         items: seq<Obligation>, r: Results, named: Obligation -> bool, d: Decision,
                         attempts: int, maxRepairs: int)
    requires IsContractFor(items, plan, implementIntent, obligations) && Evaluates(d, items, r, named)
    ensures Lifecycle.AfterAcceptance(Lifecycle.FactsFor(plan, r, Some(d), attempts, maxRepairs), Lifecycle.Fallback)
              .next.NextPublish? <==>
            && Publishes(plan) && !Lifecycle.PublishFinished(r.publish) && !Obstructed(r)
            && EarnedBefore(plan, implementIntent, obligations, items, r, named)
            && r.execution.Some? && r.execution.value.ok && r.execution.value.status == Succeeded
            && r.execution.value.stageFailure.None?
            && (forall k :: 0 <= k < |r.execution.value.evidence.blockers| ==> r.execution.value.evidence.blockers[k].deferred)
            && (Published(r)
                && (plan.requiresMutation || plan.mustChangeWorld || plan.expectedChanges != []
                    || Wants(plan.testLevels, {IntegrationTests, SmokeTests, E2eTests, EndToEndTests, RuntimeProof,
                                               RuntimeTests}))
                ==> MandatoryClean(plan, r))
  {
    hide EarnedBefore, Obstructed, EnvironmentBlocked, PassedFor, MandatoryClean, Lifecycle.AllButPublishSatisfied,
         Lifecycle.FactsFor, Lifecycle.AfterAcceptance, Wants, HasLevel, Lifecycle.PublishFinished, Evaluates,
         IsContractFor, Lifecycle.VerificationTerms, Lifecycle.MandatoryVerification, Lifecycle.CleanExecution;
    Lifecycle.PublishGate(plan, implementIntent, obligations, items, r, named, d, attempts, maxRepairs);
    Lifecycle.ExecutionSucceededIsClean(r.execution);
    BlockedMeans(r);
    MandatoryMeans(plan, r);
    if Publishes(plan) { AllButPublishIsEarned(plan, implementIntent, obligations, items, r, named); }
    assert PublishDone(r) <==> Published(r);
  }

  // ----- prerequisites -----

  lemma {:induction false} NonBlankKeeps(items: seq<string>, x: string)
    ensures x in NonBlank(items) <==> x != "" && exists raw :: raw in items && Strip(raw) == x
  {
    if items != [] {
      var front, last := items[..|items| - 1], items[|items| - 1];
      NonBlankKeeps(front, x);
      assert items == front + [last];
    }
  }

  predicate IsPrerequisite(plan: ExecutionPlan, obligations: Option<Obligations>, raw: string) {
    var runtime := Wants(plan.testLevels, {IntegrationTests, SmokeTests, E2eTests, EndToEndTests, RuntimeProof, RuntimeTests});
    || (runtime && raw in plan.environmentNotes)
    || (obligations.Some? && raw in obligations.value.setupSteps)
    || (obligations.Some? && runtime && raw in obligations.value.environmentConditions)
  }

  /** The prerequisites are the trimmed setup steps, and for a runtime level also the environment notes
      and conditions, without blanks and without repetition. */
  lemma PrerequisitesMean(plan: ExecutionPlan, obligations: Option<Obligations>, x: string)
    ensures Distinct(Prerequisites(plan, obligations))
    ensures x in Prerequisites(plan, obligations) <==>
            x != "" && exists raw :: IsPrerequisite(plan, obligations, raw) && Strip(raw) == x
  {
    var runtime := HasLevel(plan.testLevels, RUNTIME_LEVELS);
    var notes := if runtime then plan.environmentNotes else [];
    var conditions := if runtime && obligations.Some? then obligations.value.environmentConditions else [];
    var steps := if obligations.Some? then obligations.value.setupSteps else [];
    NonBlankKeeps(notes + conditions + steps, x);
    MergeNewIsUnion([], NonBlank(notes + conditions + steps));
    assert Prerequisites(plan, obligations) == MergeNew([], NonBlank(notes + conditions + steps));
    hide Strip, NonBlank, MergeNew, Prerequisites;
    WantsIsHasLevel();
  }
}
