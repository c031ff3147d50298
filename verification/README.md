# Workflow control plane: a verified model

The modelled system drives a coding agent through a pipeline: classify a task, collect evidence,
derive obligations, plan, execute the plan packet by packet, review, run QA, decide on acceptance,
publish, and report. A deterministic control plane around the agent decides every step: which packet
may run, when to retry, repair or go back to an earlier stage, when publication is allowed and what
the final report says. This project models that control plane in Dafny and proves what it keeps over
whole runs, for every answer agents, language models and people can give.

The modules, from the bottom up:

- `Prelude`, `Text`: optional values, duplicate-free merging, trimming and lower-casing.
- `DependencyCycles`, `Packets`, `Validator`: the packet graph, the depth-first cycle search over
  shared sets, and the decomposition validator with its single-packet fallback. `ValidatorLaws` says
  which issues a plan deserves.
- `PacketIds`, `Planner`: deterministic packet ids and the planner's chain of packets.
- `PlannerLaws`: which packets a plan holds and in which order, by their kinds alone.
- `Scheduler`, `DependencySafety`, `ScheduleRuns`, `PlannedRuns`: packet selection, progression and
  status updates; runs of them over any plan and over the plans the planner builds. `SchedulerLaws`
  says what statuses, selection and progression come down to.
- `Evidence`, `Acceptance`, `Checks`, `Evaluation`: acceptance contracts and what evidence satisfies
  each obligation.
- `Lifecycle`, `AgentRetry`, `LoopPolicy`, `Report`: policy queries, lifecycle transitions, retries,
  the re-entry budget and the final report. `Grounds` and `ReviewLaws` say what verdicts, acceptance,
  the publish gate and review come down to in the raw results.
- `Topology`, `DataFlow`: the wired graph, its stepping, and which state fields each stage finds.
- `Pipeline`: every stage node together with its router as one state machine. `PipelineSafety`,
  `PipelineReports`, `PipelineTermination`, `PipelineDependencies` and `PipelinePackets` prove what holds over all its
  runs; `PipelineExamples`, `DependencyExamples` and `ReentryExamples` build runs the code does allow.
- `Recovery`, `PipelineRecovery`: resuming from a checkpoint, and the proof that the runs of `Pipeline`
  are the traces recovery is stated on.
- `Snapshots`: transition and artifact bookkeeping.
- `Collector`, `ContractRepair`: the agent's event stream and the contract-repair loop of the two
  language-model backends.

Main results:

- `PipelineDependencies.ExecutionsAreSafeIff`: in every run, each execution works on a packet whose
  dependencies are done if and only if the selector called each of them ready, and if and only if no
  review stranded the run in one of two ways: its strategy checkpoint left repair_only after
  progression had picked a failed packet, or it retried an agent failure with a packet blocked and
  none active.
- `PipelineTermination.RunsAreBounded`: a run has at most 646 + 48 times the retry budget + 24 times
  the number of its unguarded steps. Unguarded are only the repairs chosen by review or QA review, and
  the returns to execute for a failed packet under repair_only; every other return to execute is a
  retry, or its execution uses up a pending packet. The bound tolerates re-planning, which resets the
  packets. `PipelineTermination.RunsOutsideRepairOnlyAreBounded`: away from repair_only the chosen
  repairs alone decide.
- `PipelineSafety.PublicationIsNeverPremature`: in every run, publication starts only when every
  other obligation is satisfied by the evidence in the state, execution was clean and nothing in the
  environment blocks. `Lifecycle.PublishGate` states the single transition as an equivalence.
- `PipelineReports.RunsReportHonestly` with `Report.NoFalseSuccess`: for a mutating plan with checks,
  "completed" rests on an accepted decision, mutation evidence and checks that passed with nothing
  failed and no environment blocker. `PipelineReports.CompletedMeansPublished`: a completed run that had
  to publish did so, or its verifier had claimed that nothing was left to publish.
- `Grounds.AcceptedIffEarned` and `Report.CompletedIffEarned`: building a contract, judging each
  obligation, deciding and reporting, taken together, come to "completed" exactly when the raw tests,
  commands, lists and blockers bear out what the plan, the intent and the discovered obligations ask
  for; `PipelineReports.RunsEarnTheirCompletion` lifts it to runs and `Grounds.PublishGateMeans` says the
  same of going on to publish. `Report.CompletedWithoutMutationIff` covers plans that do not mutate.
- `PipelinePackets.CompletedPacketsAreEarned`: in every run a completed packet was completed while it was
  active, by a result that supports it.
- `ReviewLaws.ReviewMeans`, `ReviewLaws.OnlySoundResultsReachQa`: where review sends a raw result, and what
  gets past it in any run.
- `PlannerLaws.PlannedAsAsked`, `PlannerLaws.PlannedMeans`: a plan holds exactly what the flags ask for, in
  its place and with its meaning, except for what the cut to five packets drops from the end.
- `SchedulerLaws.SelectMeans`, `SchedulerLaws.OutcomeMeans`: the selector picks the first of the most urgent
  packets of any plan, and progression decides by the statuses there are.
- `ScheduleRuns.NeverStallsIffOrdered`, `ScheduleRuns.ChainRun`, `PlannedRuns.PlannedRunsEndAsExpected`:
  how runs over packets end, exactly.
- `Validator.NoIssuesIffWellFormed`, `DependencyCycles.HasCycle`: the validator and the cycle search
  are sound and complete.
- `DataFlow.NoStageIsRejected`: no path over the graph reaches a stage with a required field missing.
- `Recovery.ResumesIff`: a run can be resumed until it has been finalized, and exactly when it then
  continues where it was going; with `PipelineRecovery.EveryStepIsAVisit` it speaks of every run of the
  workflow.
- `Collector.Collect`, `Collector.ReplaysChangeNothing`, `ContractRepair.BackendsAgree`: the loops
  against their declarative meaning.

The policy is the in-process evaluator; the safety and termination theorems hold for every evaluator
that allows no more than it does.

## Where the code differs from its documentation

The model follows the code. The differences are stated as theorems:

- Repairs are called bounded, but `review` and `qa_review` route to repair without asking the
  lifecycle policy (`stages/review_qa.py:50-68` and `330-336`). `PipelineExamples.RepairsFromReviewAreUnbounded`
  gives a run with n repairs for every n. Only the repairs after a publication are limited to two
  (`PipelineTermination.PublishRepairsAreBounded`).
- A publication that is denied afterwards does not reopen acceptance (`stages/publishing.py:90-99`).
  `PipelineReports.CompletedAfterDeniedPublicationIff` says when such a run still reports
  "completed": exactly when the verifier had claimed that commit and push were done before
  publication. `PipelineExamples.FailedPublicationReportedAsCompleted` is such a run.
- The execute stage works on whatever packet is selected and never looks at the selector's `ready`
  (`stages/execution.py:141-148`). `DependencyExamples.LeavingRepairOnlyRunsTooEarly` and
  `DependencyExamples.RetryingRunsTooEarly` are runs in which a packet is executed while the one it
  depends on is failed or blocked; in the first of them the selector later calls a packet ready whose
  dependency is blocked. `PipelineDependencies.ExecutionsAreSafeIff` says that there is no third way.
- Decisions that found nothing to do are recorded too and count against the re-entry budget
  (`LoopPolicy.RecordedDecisionsUseUpTheBudget`). In a live run acceptance never re-enters
  (`PipelineSafety.AcceptanceNeverReenters`), so a run goes back at most twice, not three times
  (`PipelineTermination.ReentriesAreBounded`, `ReentryExamples.TwoReentriesAreReached`).
- A stored retry budget of zero is read as three (`AgentRetry.BudgetOf`), and the test on the
  failure's evidence kind is never decisive (`AgentRetry.RetryableIffFlagged`).
- A valid plan that is not listed in dependency order stalls in manual intervention
  (`ScheduleRuns.NeverStallsIffOrdered`); cutting a plan to five packets can drop its verification
  checkpoint (`Planner.CheckpointSurvivesIff`).
- `validator.py:95` raises a KeyError for a finished packet with an unknown dependency
  (`Validator.MissesLookup`, the outcome `Raised` of `Validator.Validate`); lines 102-106 are never
  effective.
- Resuming goes by the last controller decision, and a strategy checkpoint appends one that names the
  stage it was taken in (`strategy/runtime.py:149-161`). After planning, after a review that did not
  pass or found deliverables missing, after a QA review that did not pass and after an acceptance that
  was not accepted, a run therefore resumes at that same stage (`Recovery.ResumesIff`); after a re-entry
  that stage then finds its fields cleared (`Recovery.ResumeAfterReentryIsRejected`). After a stage that
  records nothing a run falls back to an earlier one. Only the transition after a publication records a
  "verify" that stays last, and such a run starts over from intake.
- A run interrupted right after publishing goes back to acceptance, except that it publishes a second
  time exactly when the verifier had claimed that there was nothing left to publish
  (`PipelineRecovery.InterruptedPublicationIsRepeatedIff`).

## Model

| member | source | states |
|---|---|---|
| `DependencyCycles.CycleSearch.Visit` | src/artifact_workflow_runtime/decomposition/validator.py:74-85 | a visit either exhibits a dependency cycle or makes the node permanent, restores `temp`, and keeps the finished nodes in topological order |
| `DependencyCycles.HasCycle` | src/artifact_workflow_runtime/decomposition/validator.py:69-87 | the search over shared `temp`/`perm` sets returns true exactly when some dependency chain closes, unknown packets included |
| `DependencyCycles.TopologicalMeansAcyclic` | src/artifact_workflow_runtime/decomposition/validator.py:69-87 | an order in which every packet comes after its dependencies rules out every cycle |
| `Validator.CheckText` | src/artifact_workflow_runtime/decomposition/validator.py:17-30 | the text and evidence issues of one packet, in order |
| `Validator.CheckDependencies` | src/artifact_workflow_runtime/decomposition/validator.py:31-37 | one issue per unknown dependency, in order |
| `Validator.StatusGraphIssues` | src/artifact_workflow_runtime/decomposition/validator.py:89-107 | the status issues of all packets, or the KeyError when a finished packet names an unknown dependency |
| `Validator.CollectIssues` | src/artifact_workflow_runtime/decomposition/validator.py:9-50 | all issues in the order the validator reports them, or the KeyError |
| `Validator.NoIssuesIffWellFormed` | src/artifact_workflow_runtime/decomposition/validator.py:9-50 | no issue is found exactly for plans that are well formed: distinct ids, sound packets, known acyclic dependencies, compatible statuses, only repair packets under repair_only |
| `ValidatorLaws.IssueReportedIff` | src/artifact_workflow_runtime/decomposition/validator.py:9-107 | each issue is reported exactly for the plans that deserve it, one by one; one kind never is |
| `ValidatorLaws.FallbackForbids` | src/artifact_workflow_runtime/decomposition/validator.py:59-67 | the fallback packet forbids what its packet forbade, normalised, and to expand the scope |
| `Validator.Validate` | src/artifact_workflow_runtime/decomposition/validator.py:9-57 | valid exactly for well-formed plans; otherwise the issues and the fallback plan, if asked for; the KeyError exactly when a lookup misses |
| `Validator.FallbackWellFormedIff` | src/artifact_workflow_runtime/decomposition/validator.py:51-67 | the one-packet fallback is well formed except for what is wrong with the first packet itself or a type repair_only forbids |
| `PacketIds.SlugMeans` | src/artifact_workflow_runtime/decomposition/planner.py:532-534 | the slug of a title is never empty, at most 24 characters, and the whole squashed title if that is no longer |
| `PacketIds.PacketIdDeterminesIndex` | src/artifact_workflow_runtime/decomposition/planner.py:532-534 | packets of one plan share an id only when they share an index, whatever their titles |
| `Planner.Builder.AppendPacket` | src/artifact_workflow_runtime/decomposition/planner.py:89-121 | appending takes the next index, depends on the given lead and leaves earlier packets alone |
| `Planner.Builder.AppendCore` | src/artifact_workflow_runtime/decomposition/planner.py:122-206 | setup and the strategy's own packets, each chained to the one before |
| `Planner.Builder.AppendRest` | src/artifact_workflow_runtime/decomposition/planner.py:211-269 | integration, tests, docs, CI and checkpoint packets, or one confirmation packet when nothing is left to do |
| `Planner.PacketsForStrategy` | src/artifact_workflow_runtime/decomposition/planner.py:54-275 | the packets are the chain over the planned work, cut to five |
| `PlannerLaws.AllIsAsked` | src/artifact_workflow_runtime/decomposition/planner.py:122-269 | before the cut the plan holds as many packets of each kind as the flags, the strategy and the completed types ask for, each in its place |
| `PlannerLaws.PlannedAsAsked` | src/artifact_workflow_runtime/decomposition/planner.py:54-275 | the packets of every plan are those asked for, each in its place; only a cut to five drops any, and then from the end |
| `PlannerLaws.LeadsComeFirst` | src/artifact_workflow_runtime/decomposition/planner.py:122-269 | setup first, tests before the implementation under bdd_incremental, a spike before it under spike_then_harden, then integration, tests, docs, CI, and verification last |
| `PlannerLaws.PlannedMeans` | src/artifact_workflow_runtime/decomposition/planner.py:89-269 | each packet carries the wording its kind has under the strategy, and the forbidden actions; under safe_refactor the behaviour is characterised before the refactor is applied |
| `Planner.PlannedWorkSize` | src/artifact_workflow_runtime/decomposition/planner.py:54-275 | between one and five packets for every strategy, complexity and flags |
| `Planner.ChainedIsChain` | src/artifact_workflow_runtime/decomposition/planner.py:89-121 | distinct ids, and each packet depends on exactly its predecessor, also after truncation |
| `Planner.PlannedIsReadyToRun` | src/artifact_workflow_runtime/decomposition/planner.py:22-52 | every planned plan is well formed, untouched, a chain, and has one to five packets |
| `Planner.BuildPlan` | src/artifact_workflow_runtime/decomposition/planner.py:22-52 | the plan built is the planned one, is valid, and the single-packet fallback is never used; a blank description is rejected |
| `Planner.CheckpointSurvivesIff` | src/artifact_workflow_runtime/decomposition/planner.py:251-275 | the verification checkpoint survives the cut to five packets exactly when at most four packets precede it |
| `Scheduler.UpdatePacketStatus` | src/artifact_workflow_runtime/decomposition/runtime.py:31-58 | every packet with the id gets the status, the previous status is that of the last such packet, and an unknown id is an error |
| `Scheduler.FirstIndex` | src/artifact_workflow_runtime/decomposition/selector.py:13-36 | the first packet satisfying a condition, none before it |
| `SchedulerLaws.TypedStatusIff` | src/artifact_workflow_runtime/stages/execution.py:32-58 | a packet is completed exactly by a usable result without blockers or, for an implementation, by one that changes something, fails nothing and misses only evidence; blocked by a blocked result, a missing environment or a runtime-sensitive partial one; else failed |
| `SchedulerLaws.SelectMeans` | src/artifact_workflow_runtime/decomposition/selector.py:9-46 | for any plan with distinct ids the first of the most urgent packets is selected, none exactly when none is urgent; ready exactly when its dependencies are done or it is a failed one up for repair; the pending dependencies are those not done |
| `SchedulerLaws.OutcomeMeans` | src/artifact_workflow_runtime/decomposition/runtime.py:135-260 | for any plan the outcome follows from which statuses and kinds occur, in order of precedence |
| `SchedulerLaws.OutcomeLeadsTo` | src/artifact_workflow_runtime/decomposition/runtime.py:135-260 | next stage, next packet, whether the run ends, whether it counts as blocked and the hint for the report, for each outcome |
| `SchedulerLaws.LastStatusIsLast` | src/artifact_workflow_runtime/decomposition/runtime.py:31-58 | the previous status of an update is that of the last packet with the id |
| `Packets.LastOfAnIdWins` | src/artifact_workflow_runtime/decomposition/selector.py:39-46 | with repeated ids the status table holds the last packet of each |
| `DependencySafety.DepsReadyMeansDone` | src/artifact_workflow_runtime/decomposition/selector.py:39-41 | a packet is ready exactly when each dependency is the id of a completed or skipped packet |
| `DependencySafety.StepKeepsInvariant` | src/artifact_workflow_runtime/decomposition/selector.py:9-46 | for any plan with distinct ids: an execution of a ready packet, a retry and a repair keep the dependencies of every touched packet done |
| `DependencySafety.ReadyIffDone` | src/artifact_workflow_runtime/decomposition/selector.py:13-41 | while that holds, the selected packet is called ready exactly when its dependencies are done, also where repair_only offers a failed packet unseen |
| `DependencySafety.ExecutionsAreSafeIffReady` | src/artifact_workflow_runtime/stages/execution.py:141-148 | over every run of executions, retries and repairs under changing strategies, all executions so far found the dependencies of their packet done if and only if all of them worked on a ready packet |
| `DependencySafety.OfferedPacketsHaveDoneDependencies` | src/artifact_workflow_runtime/decomposition/selector.py:9-46 | as long as the executions so far worked on ready packets, a packet offered as ready under any strategy has all dependencies completed or skipped |
| `ScheduleRuns.FrontProgression` | src/artifact_workflow_runtime/decomposition/runtime.py:135-260 | for a plan in progress progression executes the next packet if its dependencies are done, else stops for the reason the statuses give |
| `ScheduleRuns.OrderedRun` | src/artifact_workflow_runtime/decomposition/runtime.py:135-260 | an ordered plan of n packets takes at most n executions and ends completed, failed, short of runtime proof or of an environment |
| `ScheduleRuns.ChainRun` | src/artifact_workflow_runtime/decomposition/runtime.py:135-260 | for a chain the number of executions, the completed packets and the outcome, all from the first result that is not completed |
| `ScheduleRuns.NeverStallsIffOrdered` | src/artifact_workflow_runtime/decomposition/selector.py:27-36 | manual intervention is unreachable exactly for plans listed in dependency order |
| `ScheduleRuns.RepairOnlyRun` | src/artifact_workflow_runtime/decomposition/selector.py:13-26 | any planned chain under repair_only goes on exactly as long as no result is blocked and packets are left to complete, however often executions fail |
| `PlannedRuns.PlannedRunsEndAsExpected` | src/artifact_workflow_runtime/decomposition/runtime.py:107-260 | a planned plan of n packets takes at most n (so five) executions with any results and ends in one of four outcomes, determined by the first result not completed |
| `PlannedRuns.PlannedRepairRuns` | src/artifact_workflow_runtime/decomposition/selector.py:19-21 | any plan the planner built, run under repair_only, goes on exactly as long as no execution is blocked and not every packet is completed |
| `PlannedRuns.FallbackIsOffered` | src/artifact_workflow_runtime/decomposition/validator.py:51-67 | the fallback keeps what its packet is about and is offered as ready under every strategy, whatever had become of the packet |
| `PlannedRuns.StoppedRunsAreReported` | src/artifact_workflow_runtime/reports/finalizer.py:75-94 | a chain stopped at a packet that did not complete is reported failed, short of an environment or blocked, as the packet and the evidence decide, never completed |
| `Acceptance.Add` | src/artifact_workflow_runtime/control_plane/kernel.py:442-455 | an obligation is added once per kind, under a fresh id |
| `Acceptance.BuildAcceptanceContract` | src/artifact_workflow_runtime/control_plane/kernel.py:425-516 | the contract holds exactly the obligations the plan, the intent and the discovered obligations demand, once each, all blocking, each with its test levels, checks and environment prerequisites |
| `Acceptance.DemandsNothingElseIff` | src/artifact_workflow_runtime/control_plane/kernel.py:506-507 | the generic evidence obligation stands alone: it is demanded exactly when no other is |
| `Checks.CheckStatus` | src/artifact_workflow_runtime/control_plane/kernel.py:983-1019 | ran, passed and failed are the existence of a running, and of a passing with no failing, and of a failing report in any result |
| `Grounds.CheckFlagsMean` | src/artifact_workflow_runtime/control_plane/kernel.py:983-1019 | for any terms: ran, passed and failed in terms of the raw tests and commands of the levels and roles the terms stand for, and of the lists of the verifier |
| `Grounds.SetupMeans` | src/artifact_workflow_runtime/control_plane/kernel.py:1022-1047 | required setup counts as proved exactly when it was run cleanly, a runtime probe was or passed, the verifier says so, or nothing is blocked and the integration, smoke and runtime checks are clean |
| `Grounds.PrerequisitesMean` | src/artifact_workflow_runtime/control_plane/kernel.py:473-482 | the prerequisites are the trimmed setup steps and, for a runtime level, the environment notes and conditions, without blanks or repetition |
| `Checks.ObserveEvidence` | src/artifact_workflow_runtime/control_plane/kernel.py:984-1003 | the reports drawn from tests and commands of the targeted levels and roles |
| `Evaluation.PassesIffSatisfied` | src/artifact_workflow_runtime/control_plane/kernel.py:584-695 | an obligation is judged passed exactly when the evidence satisfies what its kind asks |
| `Evaluation.EvaluateObligation` | src/artifact_workflow_runtime/control_plane/kernel.py:584-695 | the status and environment blocker of one obligation, every branch |
| `Evaluation.EvaluateAcceptance` | src/artifact_workflow_runtime/control_plane/kernel.py:518-582 | accepted exactly when all blocking obligations passed, else the rejection status and final status in order of precedence; missing execution needs human review |
| `Grounds.VerdictMeans` | src/artifact_workflow_runtime/control_plane/kernel.py:584-695 | the verdict on every kind of obligation in the raw results: integration by tests and commands of integration and smoke levels only, build by build ones, five kinds blocked by an environment in the way |
| `Grounds.AcceptedIffEarned` | src/artifact_workflow_runtime/control_plane/kernel.py:425-582 | contract, verdicts and decision together: accepted exactly when the raw results bear out all that the plan, the intent and the discovered obligations ask for |
| `Evaluation.NothingExecuted` | src/artifact_workflow_runtime/control_plane/kernel.py:518-535 | without an execution nothing is accepted and a person has to look |
| `Evaluation.FinalStatusIff` | src/artifact_workflow_runtime/control_plane/kernel.py:548-568 | which decision and final status an evaluated contract gets, in terms of its results; "blocked" never comes out, because a blocked result always names an environment blocker |
| `Lifecycle.ExecutionSucceededIsClean` | src/artifact_workflow_runtime/control_plane/kernel.py:293-383 | the executionSucceeded fact holds exactly for a usable, successful result all of whose blockers are deferred |
| `Lifecycle.DerivedStatusMeans` | src/artifact_workflow_runtime/control_plane/kernel.py:293-383 | when a claimed success is taken back, and what it then counts as |
| `Lifecycle.PublishTroubleMeans` | src/artifact_workflow_runtime/control_plane/kernel.py:293-383 | which publications have failed checks and which are done |
| `Lifecycle.ViolationsMean` | src/artifact_workflow_runtime/lifecycle/policy.py:99-160 | the in-process policy names exactly the violations the facts raise, for every question |
| `Lifecycle.AfterExecutionIff` | src/artifact_workflow_runtime/lifecycle/machine.py:40-109 | after a disciplined execution the next stage is publish exactly when publication is due and nothing stands against it, else verify; after a repair it is review |
| `Lifecycle.NoPublishMeansFinalize` | src/artifact_workflow_runtime/lifecycle/machine.py:111-145 | without publication acceptance leads to finalize, allowed exactly when accepted |
| `Lifecycle.PublishPolicyIff` | src/artifact_workflow_runtime/lifecycle/policy.py:116-124 | the in-process policy allows publication exactly with a working environment, the mandatory verification and a successful execution |
| `Lifecycle.PublishReadyIff` | src/artifact_workflow_runtime/lifecycle/machine.py:111-145 | accepted, or short of publish obligations only, means exactly that every other obligation is satisfied |
| `Lifecycle.PublishGate` | src/artifact_workflow_runtime/lifecycle/machine.py:111-145 | after acceptance the transition is publish if and only if publication is due, all other obligations are satisfied, execution was clean and the environment works |
| `Grounds.PublishGateMeans` | src/artifact_workflow_runtime/lifecycle/machine.py:111-145 | in the raw results, exactly when acceptance leads on to publish |
| `Lifecycle.NoPrematurePublish` | src/artifact_workflow_runtime/lifecycle/machine.py:111-145 | the same gate in one direction for every evaluator that allows no more |
| `Lifecycle.BuiltInEvaluatorsAllowNoMore` | src/artifact_workflow_runtime/lifecycle/policy.py:41-62 | the fail-closed evaluator allows nothing the in-process one denies |
| `Lifecycle.RepairIff` | src/artifact_workflow_runtime/lifecycle/machine.py:148-195 | a troubled publication is repaired exactly while attempts remain and the environment works; otherwise it leaves by a transition that is not allowed |
| `Lifecycle.RepairUnderStricterPolicy` | src/artifact_workflow_runtime/lifecycle/policy.py:134-142 | under any stricter evaluator a repair still needs attempts, a working environment and failed checks or blockers |
| `Lifecycle.ExecutionMustNotPublish` | src/artifact_workflow_runtime/lifecycle/machine.py:40-50 | execution that committed, pushed or opened a pull request stops the workflow, after execution and after repair |
| `AgentRetry.RetryableIffFlagged` | src/artifact_workflow_runtime/control_plane/agent_retry.py:51-58 | every failure kind is retryable, so only the failure's own flag decides |
| `AgentRetry.ZeroMeansThree` | src/artifact_workflow_runtime/stages/review_qa.py:30-40 | a stored budget of zero grants three retries, a negative one none |
| `AgentRetry.RetriesAreBounded` | src/artifact_workflow_runtime/control_plane/agent_retry.py:65-108 | over any series of failures exactly the first `budget` retryable ones are retried |
| `LoopPolicy.ReentersIffBudgetLeft` | src/artifact_workflow_runtime/control_plane/loop_policy.py:50-129 | a trigger leads back exactly while no limit is exhausted, and otherwise to finalize |
| `LoopPolicy.BudgetIsNeverExceeded` | src/artifact_workflow_runtime/control_plane/loop_policy.py:76-106 | over any run automatic re-entries stay within the global, trigger, source and target limits, whatever else is recorded and whichever evaluator decides |
| `LoopPolicy.ExhaustionIsPermanent` | src/artifact_workflow_runtime/control_plane/loop_policy.py:76-84 | a limit once hit stays hit |
| `LoopPolicy.RecordedDecisionsUseUpTheBudget` | src/artifact_workflow_runtime/control_plane/loop_policy.py:76-84 | recorded decisions of any kind use up the global limit |
| `LoopPolicy.DefaultBudgetIsReachable` | src/artifact_workflow_runtime/lifecycle/models.py:125-129 | the policy by itself allows three re-entries under the default budget, when two stages ask: its global limit can be used up |
| `Report.CompletionNeedsAcceptance` | src/artifact_workflow_runtime/reports/finalizer.py:61-114 | a mutating plan is reported completed only through an acceptance decision that says so |
| `Report.CompletedIff` | src/artifact_workflow_runtime/reports/finalizer.py:61-114 | completion of a mutating plan is equivalent to every obligation being satisfied, with no earlier branch applying |
| `Report.CompletedIffEarned` | src/artifact_workflow_runtime/reports/finalizer.py:61-114 | completion of a mutating plan is equivalent to the raw results bearing out all that is asked for |
| `Report.NoFalseSuccess` | src/artifact_workflow_runtime/reports/finalizer.py:61-114 | completed implies an accepted decision, mutation evidence, a passed check, no failed check or command in any result, and nothing the kernel reads as an environment blocker, the verifier's missing levels and obligation results included; a required build or integration level is clean in its own tests and commands, required setup is shown to have worked |
| `Report.ViolationsNeverComplete` | src/artifact_workflow_runtime/control_plane/kernel.py:385-423 | the acceptance recorded for a denied transition is never completed |
| `Report.CompletedWithoutMutationIff` | src/artifact_workflow_runtime/reports/finalizer.py:61-114 | a plan that does not mutate is reported completed by an accepting decision or, without a decision, exactly when nothing earlier decides, nothing went wrong and the verifier says completed, or says nothing and passed |
| `Report.EarlyStatuses` | src/artifact_workflow_runtime/reports/finalizer.py:61-74 | denied approval, policy, research and observation in their order, then the acceptance |
| `Report.StoppedStatuses` | src/artifact_workflow_runtime/reports/finalizer.py:75-94 | what a run stopped by progression or by its packets is reported as |
| `Report.ResultStatuses` | src/artifact_workflow_runtime/reports/finalizer.py:95-114 | what the results say when nothing before them decides: failed execution, failed publication, the verifier, nothing verified, nothing executed |
| `Report.ViolationStatusIff` | src/artifact_workflow_runtime/control_plane/kernel.py:385-423 | a denied transition is recorded as one blocked result per violation, and as the agent's failure exactly when a stage gave nothing usable |
| `Report.VerifierCanCompleteWithoutAcceptance` | src/artifact_workflow_runtime/reports/finalizer.py:106-108 | a plan that does not mutate can be reported completed on the verifier's word alone |
| `Topology.BuildWorkflowGraph` | src/artifact_workflow_runtime/graph/topology.py:61-89 | the graph built has the 23 stages, exactly the listed edges, and for each router the listed targets |
| `Topology.Invoke` | src/artifact_workflow_runtime/graph/compat.py:12-29 | the stages visited and the state handed from one to the next are those of the wired edges applied to each updated state, from dispatch on; it ends exactly at end, and fails exactly when a router names a stage outside its mapping |
| `Topology.StateGraph.AddConditionalEdges` | src/artifact_workflow_runtime/graph/compat.py:48-49 | a router and its mapping replace what the source had |
| `Topology.OnlyAcceptanceLeadsToPublish` | src/artifact_workflow_runtime/graph/topology.py:66-88 | acceptance is the only way into publish apart from dispatch |
| `Topology.ReentryTargetsAreWired` | src/artifact_workflow_runtime/control_plane/loop_policy.py:275-297 | every target the loop policy can choose is an edge of both qa_review and acceptance |
| `DataFlow.FieldsByStage` | src/artifact_workflow_runtime/models/state.py:156-218 | the stage contracts and the statuses read field by field: which stages cannot do without a field and which statuses vouch for it |
| `DataFlow.RequiredIsAvailable` | src/artifact_workflow_runtime/models/state.py:156-181 | what a stage contract requires is available at the depth of the stage |
| `DataFlow.EdgesDescendOneLevel` | src/artifact_workflow_runtime/graph/topology.py:66-88 | an edge goes at most one level deeper and its source produced what that level adds |
| `DataFlow.ClearingIsHarmless` | src/artifact_workflow_runtime/stages/common.py:133-154 | re-entry never clears a field its target or the status just written needs |
| `DataFlow.RepairIsHarmless` | src/artifact_workflow_runtime/stages/execution.py:427-436 | repair resets nothing that review needs |
| `DataFlow.NoStageIsRejected` | src/artifact_workflow_runtime/models/state.py:156-218 | on every path from intake each stage finds its required fields and leaves the fields its status demands |
| `DataFlow.ReentryRestoresWhatIsMissing` | src/artifact_workflow_runtime/control_plane/loop_policy.py:275-297 | a re-entry taken goes to the one stage producing what the trigger misses; what planning derives later is cleared, what the target requires is not |
| `Pipeline.StepsAreWired` | src/artifact_workflow_runtime/stages/review_qa.py:169-385 | every step of every node and router follows an edge of the graph |
| `PipelineSafety.HistoryGrows` | src/artifact_workflow_runtime/stages/review_qa.py:329-357 | recording a decision keeps the history one that the budget theorem covers |
| `PipelineSafety.CodeFailureCostsGlobalBudget` | src/artifact_workflow_runtime/stages/review_qa.py:329-336 | the decision recorded for a code failure uses up the global re-entry budget and no other |
| `PipelineSafety.AskedGoesOnIff` | src/artifact_workflow_runtime/stages/review_qa.py:372-385 | the loop policy names a target exactly when there is a trigger |
| `PipelineSafety.AcceptanceNeverReenters` | src/artifact_workflow_runtime/stages/verification_acceptance.py:314-327 | acceptance sees the trigger inputs qa_review saw and never re-enters |
| `PipelineSafety.StepKeepsInvariant` | src/artifact_workflow_runtime/stages/verification_acceptance.py:274-361 | every step keeps: acceptance exists only past the acceptance stage, the publish gate is open at publish, the final acceptance is accounted for |
| `PipelineSafety.PublicationIsNeverPremature` | src/artifact_workflow_runtime/stages/publishing.py:9-22 | at the publish stage of every run the gate is open on the evidence in the state, and the stage's own check never fails |
| `PipelineSafety.GateIsReady` | src/artifact_workflow_runtime/stages/publishing.py:17-22 | before publication the decision is accepted exactly when the publish obligation already counts as done |
| `PipelineReports.VerdictSubstantiates` | src/artifact_workflow_runtime/reports/finalizer.py:61-114 | a completed report rests on the results its acceptance was evaluated on |
| `PipelineReports.RunsReportHonestly` | src/artifact_workflow_runtime/reports/finalizer.py:61-114 | over all runs a completed report of a mutating, checked plan has an accepted decision substantiated by the evidence in the state, or by the evidence before a denied publication |
| `PipelineReports.RunsEarnTheirCompletion` | src/artifact_workflow_runtime/reports/finalizer.py:61-114 | over all runs a completed report of a mutating plan rests on raw results that bear out all that was asked for |
| `PipelineReports.CompletedMeansPublished` | src/artifact_workflow_runtime/reports/finalizer.py:61-114 | over all runs a completed report of a mutating plan that must publish means that publication succeeded or the verifier claimed commit and push done |
| `PipelineReports.CompletedAfterDeniedPublicationIff` | src/artifact_workflow_runtime/stages/publishing.py:67-100 | after a denied publication the report says completed exactly if the verifier had claimed commit and push done |
| `PipelineExamples.FailedPublicationReportedAsCompleted` | src/artifact_workflow_runtime/stages/publishing.py:67-105 | a run from intake to end whose publication failed its checks and is reported completed |
| `PipelineExamples.RepairsFromReviewAreUnbounded` | src/artifact_workflow_runtime/stages/review_qa.py:50-68 | for every n a run with n repairs chosen by review |
| `ReviewLaws.ReviewMeans` | src/artifact_workflow_runtime/stages/review_qa.py:16-166 | review retries, ends, repairs or lets go on, exactly as the raw result, the retry count and progression say |
| `ReviewLaws.StrayingIsReported` | src/artifact_workflow_runtime/stages/review_qa.py:44-47 | in every run an execution that published or gave nothing usable, and is not retried, ends the run and is reported as whose fault it was |
| `ReviewLaws.PassedVerificationIsAccepted` | src/artifact_workflow_runtime/stages/review_qa.py:325-385 | in every run a passed verification is not answered by a repair, and without a trigger leads to acceptance |
| `ReviewLaws.OnlySoundResultsReachQa` | src/artifact_workflow_runtime/stages/review_qa.py:50-68 | in every run only a sound result that kept to its stage gets to QA |
| `PipelinePackets.CompletedPacketsAreEarned` | src/artifact_workflow_runtime/stages/execution.py:236-252 | in every run a completed packet was completed while active by a result that supports it, since the plan was made |
| `PipelineDependencies.BuiltPlansArePlanned` | src/artifact_workflow_runtime/decomposition/planner.py:22-52 | every plan the planner builds is an untouched chain of one to five packets with a repair packet at most in front, which is what runs assume of plans |
| `PipelineDependencies.SafeIffReadyIffNotWaiting` | src/artifact_workflow_runtime/stages/execution.py:141-148 | at the execute stage of a run in order: the selected packet has its dependencies done exactly when it is called ready, and exactly when no pending work stands behind a packet that is blocked, or failed and not up for repair |
| `PipelineDependencies.ReviewStaysInOrder` | src/artifact_workflow_runtime/stages/review_qa.py:69-166 | a review keeps the chain in order, and the execution after it comes too early exactly if this review left repair_only with a failed packet picked, or retried with a packet blocked and none active |
| `PipelineDependencies.StepStaysInOrder` | src/artifact_workflow_runtime/stages/execution.py:105-279 | every stage keeps the chain in order unless it executes a packet too early, and only a review can make that happen |
| `PipelineDependencies.ExecutionsAreSafeIff` | src/artifact_workflow_runtime/stages/execution.py:141-148 | over every run, all executions worked on packets with done dependencies, if and only if all were selected as ready, if and only if no review stranded the run |
| `DependencyExamples.LeavingRepairOnlyRunsTooEarly` | src/artifact_workflow_runtime/strategy/governor.py:60-119 | a run in which a checkpoint leaves repair_only and the second packet is executed with the first one failed; later it is selected as ready with the first one blocked |
| `DependencyExamples.RetryingRunsTooEarly` | src/artifact_workflow_runtime/stages/review_qa.py:88-110 | a run in which an agent retry with no active packet executes the second packet with the first one blocked |
| `PipelineTermination.StepGoesDown` | src/artifact_workflow_runtime/graph/topology.py:66-88 | every step lowers the measure of re-entries, repairs, retries, pending packets and rank, except that an unguarded one may raise it by 23 |
| `PipelineTermination.ReentryNeedsBudget` | src/artifact_workflow_runtime/control_plane/loop_policy.py:76-106 | going back needs an automatic decision and fewer than three recorded ones |
| `PipelineTermination.PendingIsSelected` | src/artifact_workflow_runtime/decomposition/selector.py:13-36 | a pending packet is selected whenever there is one, unless repair_only prefers a failed packet |
| `PipelineTermination.ChosenAgainSpends` | src/artifact_workflow_runtime/stages/review_qa.py:111-122 | sent back to execute by progression, and not for a failed packet under repair_only, the next execution works on a pending packet |
| `PipelineTermination.ReviewGoesDown` | src/artifact_workflow_runtime/stages/review_qa.py:16-180 | review leads back to execute by spending a retry, to a pending packet, or for a failed packet under repair_only |
| `PipelineTermination.ExecuteIsEnteredFor` | src/artifact_workflow_runtime/stages/review_qa.py:80-122 | in every run the execute stage is entered only for a pending packet, by an allowed retry, or for a failed packet under repair_only |
| `PipelineTermination.ExecutionGoesDown` | src/artifact_workflow_runtime/stages/execution.py:105-279 | an execution that works on a pending packet uses it up, and no execution raises the measure |
| `PipelineTermination.PendingAfter` | src/artifact_workflow_runtime/decomposition/runtime.py:31-58 | a status change alters the number of pending packets by at most one, and settling a pending packet lowers it |
| `PipelineTermination.RunsAreBounded` | src/artifact_workflow_runtime/graph/compat.py:12-29 | a run has at most 646 + 48 * (retry budget) + 24 * (repairs chosen by review or QA review + returns to a failed packet under repair_only) steps |
| `PipelineTermination.RunsOutsideRepairOnlyAreBounded` | src/artifact_workflow_runtime/graph/compat.py:12-29 | a run that is never under repair_only has at most 646 + 48 * (retry budget) + 24 * (repairs chosen by review or QA review) steps |
| `PipelineTermination.RetriesAreBounded` | src/artifact_workflow_runtime/control_plane/agent_retry.py:65-108 | over a whole run agent failures are retried at most as often as the stored budget says, zero standing for three |
| `PipelineTermination.NoTriggerIsServedTwice` | src/artifact_workflow_runtime/lifecycle/models.py:125-129 | over a whole run no trigger is served twice, no stage asks successfully and no target is gone back to more than twice |
| `PipelineTermination.PublishRepairsAreBounded` | src/artifact_workflow_runtime/stages/publishing.py:56-105 | at most two repairs follow a publication in any run |
| `PipelineTermination.ReentriesAreBounded` | src/artifact_workflow_runtime/stages/review_qa.py:337-385 | the workflow goes back to an earlier stage for evidence or planning at most twice in any run |
| `ReentryExamples.TwoReentriesAreReached` | src/artifact_workflow_runtime/stages/review_qa.py:337-385 | a run that goes back twice |
| `Recovery.ResumeRefusedIff` | src/artifact_workflow_runtime/control_plane/recovery.py:116-146 | a resume is refused exactly for a reported or terminal run, or one without decisions at a status no stage follows |
| `Recovery.ResumesAtReadySuccessor` | src/artifact_workflow_runtime/control_plane/recovery.py:148-177 | without controller decisions a checkpoint resumes at a wired successor whose required fields are present |
| `Recovery.StatusMapAgreesIff` | src/artifact_workflow_runtime/control_plane/recovery.py:151-176 | the status map agrees with the kernel except after routing that needs both research and observation, or neither while fresh facts are wanted, and after a policy both blocked and requiring approval |
| `Recovery.StatusMapIsOptimistic` | src/artifact_workflow_runtime/control_plane/recovery.py:151-176 | without decisions the status map takes review, QA review and acceptance to have gone well |
| `Recovery.EvaluatePolicy` | src/artifact_workflow_runtime/control_plane/kernel.py:145-170 | blocked exactly with evidence problems, and never both blocked and requiring approval |
| `Recovery.LiveIsWired` | src/artifact_workflow_runtime/stages/observation_context.py:66-79 | every router's choice is a wired edge |
| `Recovery.WiredIsLive` | src/artifact_workflow_runtime/graph/topology.py:66-88 | every wired edge is one some stage takes |
| `Recovery.VerifyIsBlocked` | src/artifact_workflow_runtime/decomposition/runtime.py:135-260 | a progression that asks for verification always counts as blocked, so review takes a strategy checkpoint then |
| `Recovery.RecordedAgreesIff` | src/artifact_workflow_runtime/strategy/runtime.py:149-184 | the last decision a visit leaves leads where the router goes exactly at the faithful visits; after a strategy checkpoint it names the stage itself |
| `Recovery.ResumesIff` | src/artifact_workflow_runtime/control_plane/recovery.py:116-150 | at every point of every run: a checkpoint can be resumed exactly before finalization, and then continues where the run was going exactly at the faithful visits; after a strategy checkpoint it repeats the stage, after a stage that records nothing it falls back |
| `Recovery.ResumesWhereItFailed` | src/artifact_workflow_runtime/stages/review_qa.py:162-166 | exactly which visits are resumed at their own stage, and otherwise at the next stage the visit itself recorded |
| `Recovery.InterruptedPublishIsRepeatedIff` | src/artifact_workflow_runtime/stages/verification_acceptance.py:338-342 | a run interrupted after publishing resumes by publishing again exactly when the acceptance was accepted outright, otherwise at acceptance |
| `Recovery.ResumeAfterReentryIsRejected` | src/artifact_workflow_runtime/stages/review_qa.py:365-369 | a resume right after a re-entry goes to the stage that asked for it, which no longer finds the fields it requires |
| `PipelineRecovery.EveryStepIsAVisit` | src/artifact_workflow_runtime/stages/review_qa.py:169-180 | every step of the workflow is a visit of the recovery model with the same stage, the same next stage and the facts review and acceptance saw; the strategy changes only with a checkpoint |
| `PipelineRecovery.ResumableUntilFinalized` | src/artifact_workflow_runtime/control_plane/recovery.py:116-146 | in every run of the workflow a checkpoint can be resumed exactly until the run has been finalized, whatever was recorded |
| `PipelineRecovery.ClearingAgrees` | src/artifact_workflow_runtime/stages/common.py:133-154 | a re-entry resets exactly the fields the stage contracts are checked against |
| `PipelineRecovery.RepairAgrees` | src/artifact_workflow_runtime/stages/execution.py:427-436 | so does a repair |
| `PipelineRecovery.InterruptedPublicationIsRepeatedIff` | src/artifact_workflow_runtime/control_plane/recovery.py:148-150 | in every run of the workflow, an interrupted publication is repeated exactly when the verifier had claimed commit and push done before it |
| `Snapshots.WithTransition` | src/artifact_workflow_runtime/models/state.py:412-426 | the new status, one more transition and the artifact ids merged in order without duplicates |
| `Snapshots.BookkeepingErrors` | src/artifact_workflow_runtime/models/state.py:388-399 | no bookkeeping error exactly for consistent snapshots |
| `Snapshots.BookkeepingHolds` | src/artifact_workflow_runtime/models/state.py:412-426 | after any calls on a fresh snapshot: an unbroken chain ending in the current status, artifact ids the ordered duplicate-free union of everything added, no bookkeeping error |
| `Snapshots.ArtifactIdsOnlyGrow` | src/artifact_workflow_runtime/models/state.py:422-425 | artifact ids are never lost or reordered |
| `Collector.HandleEvent` | src/artifact_workflow_runtime/openhands_adapter/runner.py:318-361 | one turn of the loop keeps its variables equal to what the events so far amount to, and leaves exactly at the first complete point |
| `Collector.Collect` | src/artifact_workflow_runtime/openhands_adapter/runner.py:285-372 | the result is that of the events up to the first point with both an answer and a terminal status that counts: last answer, last terminal status, ids seen |
| `Collector.LookedAtOnce` | src/artifact_workflow_runtime/openhands_adapter/runner.py:301-363 | how many events are looked at is determined by the stream |
| `Collector.ReplaysChangeNothing` | src/artifact_workflow_runtime/openhands_adapter/runner.py:318-322 | deleting an event whose id is known or occurred earlier changes neither text nor status nor seen ids |
| `Collector.WorkMeans` | src/artifact_workflow_runtime/openhands_adapter/events.py:125-235 | which events show the agent at work and which carry an answer |
| `Collector.NamelessIsNew` | src/artifact_workflow_runtime/openhands_adapter/runner.py:318-322 | an event without a usable id is never a replay and leaves no id behind |
| `Collector.OnlyFourStatusesEnd` | src/artifact_workflow_runtime/openhands_adapter/runner.py:348-361 | only four statuses end a collection early; a stream without them is read to its end |
| `Collector.AnswerAndStatusEnd` | src/artifact_workflow_runtime/openhands_adapter/runner.py:332-361 | with an answer and one of them the collection has stopped |
| `Collector.EarlyStopIsJustified` | src/artifact_workflow_runtime/openhands_adapter/runner.py:348-361 | stopping before the end needs an answer and a terminal status; "finished" counts only after agent activity or a running status |
| `ContractRepair.Endpoint.Complete` | src/artifact_workflow_runtime/llm_backend/openai_compatible.py:88-113 | one call, the next answer |
| `ContractRepair.CompleteJson` | src/artifact_workflow_runtime/llm_backend/openai_compatible.py:35-86 | the outcome of the answer that settles the request, one call per answer looked at, and raw text that validates to the value |
| `ContractRepair.SettledMeans` | src/artifact_workflow_runtime/llm_backend/openai_compatible.py:45-86 | in the answers themselves: which one settles a request, the value, the attempts and the repaired flag, and when a violation is raised |
| `ContractRepair.Script.Pop` | src/artifact_workflow_runtime/llm_backend/fake.py:68-75 | the head of the queue, or the default payload of an empty one |
| `ContractRepair.CompleteScripted` | src/artifact_workflow_runtime/llm_backend/fake.py:31-66 | the outcome of the payload that settles the request within the script, what is left of the queue, and raw text that is the value written out again |
| `ContractRepair.ScriptSettledMeans` | src/artifact_workflow_runtime/llm_backend/fake.py:31-66 | the same for a script, which gives up with its last payload |
| `ContractRepair.SettlesOnce` | src/artifact_workflow_runtime/llm_backend/openai_compatible.py:45-69 | one answer settles a request |
| `ContractRepair.ReturnsIff` | src/artifact_workflow_runtime/llm_backend/openai_compatible.py:45-76 | a value is returned exactly when some answer within the limit is valid and all before it can be repaired |
| `ContractRepair.BackendsAgree` | src/artifact_workflow_runtime/llm_backend/fake.py:31-66 | on the same readable payloads both backends return the same value, attempts and repaired flag, or both raise |
| `ContractRepair.ShortScriptsAgreeIff` | src/artifact_workflow_runtime/llm_backend/fake.py:39-46 | with a shorter script they agree exactly when some payload of it is valid |

## Left out

- Prompts, language-model answers, HTTP and websocket clients, subprocess and OPA calls, QA and
  publish shell runners, artifact files, clocks: every answer is left open; generated ids are taken
  as distinct.
- Text heuristics: what counts as a deferred publish blocker, a forbidden publish action, a failed
  check in publish text, a git or pull-request command, named evidence for a discovered obligation,
  repairable command output, code-like and environment-like QA failures, HTML in place of an answer
  and the trigger scan of the loop policy are inputs or parameters. Blank summaries, which drop an
  entry from the repairable failures, are not told apart.
- The external policy (`lifecycle/policies/runtime.rego`): replaced by the in-process evaluator and
  any evaluator that allows no more.
- `strategy`: an enumeration; in pipeline runs the active strategy may change at any step that
  records a strategy checkpoint.
- `detect_trigger`: an arbitrary function of plan, obligations, verification and publication, the
  values its trigger kind depends on.
- `_obligation_flags`, `_infer_complexity` and `_runtime_facts` of the planner: their results are
  inputs; packet titles, scopes and criteria are a parameter required to be non-blank, and the unused
  `prepend` option of `append_packet` is not modelled.
- `Pipeline.Setting`: runs start at intake without a resumed state; a resumed start is covered by
  `Recovery` only. The nodes `verify` and `execution_review`, which no edge reaches, are not steps.
- `Pipeline.State`: fields that neither routing nor reporting reads are not listed; readiness errors
  end a run, and `DataFlow.NoStageIsRejected` shows that they do not occur.
- `Topology.Invoke`: cut off after a given number of stages, because the loop itself has no bound;
  a node's update is a function on states.
- `DataFlow.ReentryRestoresWhatIsMissing`: which field a trigger misses is read off the trigger's name; the
  source states only the target stage.
- `Snapshots.WithTransition`: status names are a type parameter, so coercion of unknown names is not
  modelled; of the invariant check only the bookkeeping part is.
- `Collector.Collect`: models the loops of `collect_started_conversation` and
  `run_followup_message_and_collect`; the first collector, `run_conversation_and_collect`, does not
  skip replayed events and adds a polling watcher; it is not modelled. The grace timeout ends the
  stream.
- `ContractRepair.CompleteJson`: request guards, transport errors and the wording of violations are
  left out; reading JSON and validating a schema are total functions.
- `Report.StatusOf`: `detail` texts and list fields of the report are left out, only the status is.
- `Text.Strip`: trims ASCII and Latin-1 spaces and lower-cases ASCII letters only.
- `environment/reconcile.py`, capability and ACL tables, freshness modes, model routing, evaluation
  profiles and the command line: tables and text that would only add easy members.
