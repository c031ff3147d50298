/** Structured evidence and the stage results that carry it (models/core.py). */
module Evidence {
  import opened Prelude

  datatype TestLevel = BuildLevel | UnitLevel | IntegrationLevel | SmokeLevel | RuntimeProbeLevel | OtherLevel

  datatype CommandRole =
    | ObservedSetupPath | ObservedRuntimeProbe | ExecutedSetup | ExecutedRuntimeProbe
    | BuildCommand | UnitTestCommand | IntegrationTestCommand | SmokeTestCommand | OtherCommand

  datatype BlockerKind =
    | Generic | MissingEnvironmentDependency | MissingRuntimePrerequisite | IntegrationEnvironmentUnavailable
    | TestFailure | MissingEvidence | PolicyBlocked | ExecutionFailure
  {
    /** The three kinds that stand for a missing environment. */
    predicate Environmental() {
      MissingEnvironmentDependency? || MissingRuntimePrerequisite? || IntegrationEnvironmentUnavailable?
    }
  }

  /** A lower-cased check status: the words the kernel compares with, and every other one. */
  datatype Word =
    | PassedWord | SuccessWord | SucceededWord | OkWord
    | FailedWord | BlockedWord | ErrorWord
    | MissingWord | NotRunWord | UnknownWord | OtherWord
  {
    predicate Passes() { PassedWord? || SuccessWord? || SucceededWord? || OkWord? }
    predicate Fails() { FailedWord? || BlockedWord? || ErrorWord? }
    predicate Runs() { Passes() || Fails() }
    predicate Absent() { MissingWord? || NotRunWord? || UnknownWord? }
  }

  datatype TestCheck = TestCheck(level: Option<TestLevel>, status: Word, passed: Option<bool>)

  datatype Command = Command(role: Option<CommandRole>, exitCode: Option<int>)

  /** `deferred` is what the text heuristic says of the summary: publication merely postponed. */
  datatype Blocker = Blocker(kind: BlockerKind, deferred: bool)

  datatype StructuredEvidence = StructuredEvidence(
    tests: seq<TestCheck>,
    commands: seq<Command>,
    blockers: seq<Blocker>,
    filesChanged: seq<string>,
    mutationChanged: bool)

  datatype StageFailureKind =
    | AgentNoResult | TerminalWithoutAnswer | EmptyAssistantAnswer | HtmlTransportError
    | TransportError | ApiError | EvidenceContractMissing

  /** `knownEvidenceKind`: the failure's evidence kind is one of the retryable ones. */
  datatype StageFailure = StageFailure(kind: StageFailureKind, retryable: bool, knownEvidenceKind: bool)

  datatype ExecutionStatus = Succeeded | Partial | FailedStatus | BlockedStatus

  /** The last three fields are what the command patterns for git and pull requests report. */
  datatype ExecutionResult = ExecutionResult(
    ok: bool,
    status: ExecutionStatus,
    transportError: bool,
    evidence: StructuredEvidence,
    stageFailure: Option<StageFailure>,
    bundleOk: Option<bool>,
    createdPullRequest: bool,
    pushedGit: bool,
    committedGit: bool)

  predicate BlocksEnvironment(e: StructuredEvidence) {
    exists k :: 0 <= k < |e.blockers| && e.blockers[k].kind.Environmental()
  }

  /** `_has_mutation_evidence` */
  predicate MutationEvidence(e: ExecutionResult) {
    e.evidence.mutationChanged || e.evidence.filesChanged != []
  }
}
