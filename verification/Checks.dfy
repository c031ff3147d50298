/** Reading check results, blockers and prerequisites out of the evidence (control_plane/kernel.py). */
module Checks {
  import opened Prelude
  import opened Evidence
  import opened Acceptance

  // ----- which evidence a group of terms looks at -----

  /** `_target_test_levels`; no level at all means every test counts. */
  function TargetLevels(terms: set<Level>): set<TestLevel> {
    (if BuildTests in terms || CompileTests in terms then {BuildLevel} else {})
    + (if UnitTests in terms then {UnitLevel} else {})
    + (if IntegrationTests in terms then {IntegrationLevel} else {})
    + (if SmokeTests in terms || E2eTests in terms || EndToEndTests in terms then {SmokeLevel} else {})
    + (if RuntimeTests in terms || RuntimeProof in terms then {RuntimeProbeLevel} else {})
  }

  /** `_target_command_roles` */
  function TargetRoles(terms: set<Level>): set<CommandRole> {
    (if BuildTests in terms || CompileTests in terms then {BuildCommand} else {})
    + (if UnitTests in terms then {UnitTestCommand} else {})
    + (if IntegrationTests in terms then {IntegrationTestCommand} else {})
    + (if SmokeTests in terms || E2eTests in terms || EndToEndTests in terms then {SmokeTestCommand} else {})
    + (if RuntimeTests in terms || RuntimeProof in terms then {ExecutedRuntimeProbe} else {})
  }

  predicate Counts<T(==)>(x: Option<T>, targets: set<T>) {
    targets == {} || (x.Some? && x.value in targets)
  }

  function ExitWord(code: int): Word {
    if code == 0 then PassedWord else FailedWord
  }

  // ----- what the results report -----

  predicate TestReports(e: StructuredEvidence, levels: set<TestLevel>, w: Word) {
    exists k :: 0 <= k < |e.tests| && Counts(e.tests[k].level, levels) && e.tests[k].status == w
  }

  predicate CommandReports(e: StructuredEvidence, roles: set<CommandRole>, w: Word) {
    exists k :: 0 <= k < |e.commands| && Counts(e.commands[k].role, roles)
                && e.commands[k].exitCode.Some? && ExitWord(e.commands[k].exitCode.value) == w
  }

  predicate VerifierReports(v: VerificationResult, w: Word) {
    || (w.PassedWord? && (v.performedLevels != [] || v.checksPassed != []))
    || (w.FailedWord? && v.checksFailed != [])
    || (w.MissingWord? && (v.missingLevels != [] || v.missingEvidence != []))
  }

  /** Some test, command or verifier statement selected by the terms says `w`. */
  predicate Reports(r: Results, terms: set<Level>, w: Word) {
    || (exists k :: 0 <= k < |r.Evidences()|
                    && (TestReports(r.Evidences()[k], TargetLevels(terms), w)
                        || CommandReports(r.Evidences()[k], TargetRoles(terms), w)))
    || (r.verification.Some? && VerifierReports(r.verification.value, w))
  }

  ghost predicate RanFor(r: Results, terms: set<Level>) {
    exists w: Word :: w.Runs() && Reports(r, terms, w)
  }

  /** Something passed and nothing failed. */
  ghost predicate PassedFor(r: Results, terms: set<Level>) {
    && (exists w: Word :: w.Passes() && Reports(r, terms, w))
    && (forall w: Word :: w.Fails() ==> !Reports(r, terms, w))
  }

  // ----- the imperative scan -----

  /** The statuses a check run leaves behind, in the order they are observed. */
  method ObserveEvidence(e: StructuredEvidence, levels: set<TestLevel>, roles: set<CommandRole>)
    returns (observed: seq<Word>)
    ensures forall w :: w in observed <==> TestReports(e, levels, w) || CommandReports(e, roles, w)
  {
    observed := [];
    for k := 0 to |e.tests|
      invariant forall w :: w in observed <==>
        exists j :: 0 <= j < k && Counts(e.tests[j].level, levels) && e.tests[j].status == w
    {
      if levels != {} && (e.tests[k].level.None? || e.tests[k].level.value !in levels) { continue; }
      observed := observed + [e.tests[k].status];
    }
    for k := 0 to |e.commands|
      invariant forall w :: w in observed <==>
        (TestReports(e, levels, w)
         || exists j :: 0 <= j < k && Counts(e.commands[j].role, roles)
                        && e.commands[j].exitCode.Some? && ExitWord(e.commands[j].exitCode.value) == w)
    {
      if roles != {} && (e.commands[k].role.None? || e.commands[k].role.value !in roles) { continue; }
      if e.commands[k].exitCode.None? { continue; }
      observed := observed + [if e.commands[k].exitCode.value == 0 then PassedWord else FailedWord];
    }
  }

  function Repeated(w: Word, n: nat): (r: seq<Word>)
    ensures |r| == n && forall x :: x in r <==> x == w && n > 0
  {
    if n == 0 then [] else [w] + Repeated(w, n - 1)
  }

  function VerifierWords(v: VerificationResult): (r: seq<Word>)
    ensures forall w :: w in r <==> VerifierReports(v, w)
  {
    Repeated(PassedWord, |v.performedLevels|) + Repeated(MissingWord, |v.missingLevels|)
    + Repeated(PassedWord, |v.checksPassed|) + Repeated(FailedWord, |v.checksFailed|)
    + Repeated(MissingWord, |v.missingEvidence|)
  }

  method Observe(r: Results, terms: set<Level>) returns (observed: seq<Word>)
    ensures forall w :: w in observed <==> Reports(r, terms, w)
  {
    var levels, roles := TargetLevels(terms), TargetRoles(terms);
    var evidences := r.Evidences();
    observed := [];
    for k := 0 to |evidences|
      invariant forall w :: w in observed <==>
        exists j :: 0 <= j < k && (TestReports(evidences[j], levels, w) || CommandReports(evidences[j], roles, w))
    {
      var own := ObserveEvidence(evidences[k], levels, roles);
      observed := observed + own;
    }
    if r.verification.Some? {
      observed := observed + VerifierWords(r.verification.value);
    }
  }

  /** `_check_status` */
  method CheckStatus(r: Results, terms: set<Level>) returns (ran: bool, passed: bool, failed: bool)
    ensures ran <==> RanFor(r, terms)
    ensures passed <==> PassedFor(r, terms)
    ensures failed <==> (exists w: Word :: w.Fails() && Reports(r, terms, w))
                        || (!RanFor(r, terms) && exists w: Word :: w.Absent() && Reports(r, terms, w))
  {
    var observed := Observe(r, terms);
    ran := exists k :: 0 <= k < |observed| && observed[k].Runs();
    failed := (exists k :: 0 <= k < |observed| && observed[k].Fails())
              || (!ran && exists k :: 0 <= k < |observed| && observed[k].Absent());
    passed := ran && !failed && exists k :: 0 <= k < |observed| && observed[k].Passes();
    SpotWords(r, terms, observed);
  }

  lemma SpotWords(r: Results, terms: set<Level>, observed: seq<Word>)
    requires forall w :: w in observed <==> Reports(r, terms, w)
    ensures RanFor(r, terms) <==> exists k :: 0 <= k < |observed| && observed[k].Runs()
    ensures (exists w: Word :: w.Fails() && Reports(r, terms, w)) <==> exists k :: 0 <= k < |observed| && observed[k].Fails()
    ensures (exists w: Word :: w.Passes() && Reports(r, terms, w)) <==> exists k :: 0 <= k < |observed| && observed[k].Passes()
    ensures (exists w: Word :: w.Absent() && Reports(r, terms, w)) <==> exists k :: 0 <= k < |observed| && observed[k].Absent()
  {
    hide Reports;
    forall k | 0 <= k < |observed| ensures Reports(r, terms, observed[k]) { assert observed[k] in observed; }
  }

  // ----- blockers and prerequisites -----

  predicate VerifierBlocksEnvironment(v: VerificationResult) {
    || (exists k :: 0 <= k < |v.obligationResults| && v.obligationResults[k].environmentBlocker)
    || v.missingSetup != []
    || HasLevel(v.missingLevels, {IntegrationTests, SmokeTests, E2eTests})
  }

  /** `_environment_blocker` finds one. */
  predicate EnvironmentBlocked(r: Results) {
    || (exists k :: 0 <= k < |r.Evidences()| && BlocksEnvironment(r.Evidences()[k]))
    || (r.verification.Some? && VerifierBlocksEnvironment(r.verification.value))
  }

  /** `_all_structured_blockers` is not empty. */
  predicate AnyBlocker(r: Results) {
    exists k :: 0 <= k < |r.Evidences()| && r.Evidences()[k].blockers != []
  }

  predicate ProvesSetup(e: StructuredEvidence) {
    || (exists k :: 0 <= k < |e.commands| && e.commands[k].exitCode == Some(0)
                    && (e.commands[k].role == Some(ExecutedSetup) || e.commands[k].role == Some(ExecutedRuntimeProbe)))
    || (exists k :: 0 <= k < |e.tests| && e.tests[k].status.Passes() && e.tests[k].level == Some(RuntimeProbeLevel))
  }

  predicate VerifierProvesSetup(v: VerificationResult) {
    || v.setupPerformed != []
    || (exists k :: 0 <= k < |v.obligationResults|
                    && !v.obligationResults[k].environmentBlocker
                    && v.obligationResults[k].kind.EnvironmentSatisfied? && v.obligationResults[k].status.Passed?)
  }

  /** `_environment_prerequisite_evidence_satisfied` */
  ghost predicate PrerequisitesProved(o: Obligation, r: Results) {
    || (o.environment == [] && o.checks == [])
    || !(o.kind.EnvironmentSatisfied? || o.environment != [])
    || (exists k :: 0 <= k < |r.Evidences()| && ProvesSetup(r.Evidences()[k]))
    || (r.verification.Some? && VerifierProvesSetup(r.verification.value))
    || (!AnyBlocker(r)
        && PassedFor(r, {IntegrationTests, SmokeTests, E2eTests, EndToEndTests, RuntimeTests, RuntimeProof}))
  }
}
