/** Bounded retries after agent failures (control_plane/agent_retry.py). */
module AgentRetry {
  import opened Prelude
  import opened Evidence

  /** `is_agent_retryable_failure` */
  predicate Retryable(failure: Option<StageFailure>) {
    && failure.Some? && failure.value.retryable
    && (RetryableKind(failure.value.kind) || failure.value.knownEvidenceKind)
  }

  /** `AGENT_RETRYABLE_FAILURE_KINDS` */
  predicate RetryableKind(kind: StageFailureKind) {
    kind in {AgentNoResult, TerminalWithoutAnswer, EmptyAssistantAnswer, TransportError, ApiError,
             HtmlTransportError, EvidenceContractMissing}
  }

  datatype RetryDecision = RetryDecision(allowed: bool, count: nat, next: nat)

  /** `AgentRetryPolicy.decide`; a negative count counts as zero. */
  function Decide(failure: Option<StageFailure>, currentCount: int, budget: int): RetryDecision {
    var count := if currentCount < 0 then 0 else currentCount;
    var allowed := Retryable(failure) && count < budget;
    RetryDecision(allowed, count, if allowed then count + 1 else count)
  }

  /** How the review stage reads the budget from the state: zero means the default of three. */
  function BudgetOf(stored: int): int {
    if stored == 0 then 3 else stored
  }

  /** Every failure kind there is counts as retryable, so only the failure's own flag decides. */
  lemma RetryableIffFlagged(failure: Option<StageFailure>)
    ensures Retryable(failure) <==> failure.Some? && failure.value.retryable
  {
    if failure.Some? {
      match failure.value.kind
      case AgentNoResult | TerminalWithoutAnswer | EmptyAssistantAnswer | HtmlTransportError =>
      case TransportError | ApiError | EvidenceContractMissing =>
    }
  }

  /** A negative count counts as zero, and an attempt is counted exactly when it is allowed. */
  lemma CountsFromZero(failure: Option<StageFailure>, count: int, budget: int)
    ensures count < 0 ==> Decide(failure, count, budget) == Decide(failure, 0, budget)
    ensures var d := Decide(failure, count, budget);
            && d.next == d.count + (if d.allowed then 1 else 0)
            && (d.allowed ==> d.count < budget)
  {
  }

  /** A stored budget of zero grants three retries, any other positive one what it says, a negative one
      none. */
  lemma ZeroMeansThree(failures: seq<Option<StageFailure>>, stored: int)
    ensures CountAfter(failures, BudgetOf(stored)) <= if stored == 0 then 3 else if stored < 0 then 0 else stored
    ensures stored == 0 && Flagged(failures) >= 3 ==> CountAfter(failures, BudgetOf(stored)) == 3
  {
    RetriesAreBounded(failures, BudgetOf(stored));
  }

  /** Counts after a series of failures, each decided on the count before it. */
  function CountAfter(failures: seq<Option<StageFailure>>, budget: int): nat {
    if failures == [] then 0
    else Decide(failures[|failures| - 1], CountAfter(failures[..|failures| - 1], budget), budget).next
  }

  function Flagged(failures: seq<Option<StageFailure>>): nat {
    if failures == [] then 0
    else Flagged(failures[..|failures| - 1]) + if Retryable(failures[|failures| - 1]) then 1 else 0
  }

  /** Over any series of results exactly the first `budget` retryable failures are retried. */
  lemma {:induction false} RetriesAreBounded(failures: seq<Option<StageFailure>>, budget: int)
    ensures CountAfter(failures, budget)
            == if budget <= 0 then 0 else if Flagged(failures) < budget then Flagged(failures) else budget
  {
    if failures != [] {
      RetriesAreBounded(failures[..|failures| - 1], budget);
    }
  }
}
