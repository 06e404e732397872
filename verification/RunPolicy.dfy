/** Failure classification and retry decisions of an attempt (agents/run_policy.py). */
module RunPolicy {
  import opened Backoff

  const RETRYABLE_CLASSES: set<string> :=
    {"timeout", "rate_limit", "network", "server", "unavailable", "circuit_open"}
  const KILL_SWITCH_STOP_REASON := "kill_switch_triggered"

  /** What the executor can raise, by the first `isinstance` test that matches. */
  datatype RunError =
    | BudgetError
    | LeaseLostError
    | TimeoutError
    | GuardrailError(mentionsBudget: bool)
    | ProviderError(errorClass: string)
    | InvalidCall
    | OtherError(classified: string)

  datatype FailureDecision = FailureDecision(failureClass: string, stopReason: string, retryable: bool)

  datatype RetryDecision =
    | Retry
    | Final(canceled: bool, failureClass: string, stopReason: string)

  /** The failure classes that another attempt may get past. */
  predicate TransientClass(c: string) {
    || c == "timeout" || c == "rate_limit" || c == "network"
    || c == "server" || c == "unavailable" || c == "circuit_open"
  }

  /** A lost lease, a timeout, or an error that its provider or the classifier puts in a transient class. */
  predicate Transient(error: RunError) {
    match error
    case LeaseLostError => true
    case TimeoutError => true
    case ProviderError(c) => TransientClass(c)
    case OtherError(c) => TransientClass(c)
    case _ => false
  }

  /** A budget error, a guardrail that speaks of the budget, or an error classified as one. */
  predicate Overspends(error: RunError) {
    match error
    case BudgetError => true
    case GuardrailError(mentionsBudget) => mentionsBudget
    case ProviderError(c) => c == "budget_exceeded"
    case OtherError(c) => c == "budget_exceeded"
    case _ => false
  }

  /** Exactly the transient errors are retryable, and exactly those that overspend are breaches. */
  function ClassifyFailure(error: RunError): (d: FailureDecision)
    ensures d.retryable <==> Transient(error)
    ensures d.failureClass == "budget_exceeded" <==> Overspends(error)
    ensures d.retryable ==> TransientClass(d.failureClass) || d.failureClass == "lease_lost"
  {
    match error
    case BudgetError => FailureDecision("budget_exceeded", "budget_exceeded", false)
    case LeaseLostError => FailureDecision("lease_lost", "lease_lost", true)
    case TimeoutError => FailureDecision("timeout", "timeout", true)
    case GuardrailError(mentionsBudget) =>
      if mentionsBudget then FailureDecision("budget_exceeded", "budget_exceeded", false)
      else FailureDecision("guardrail", "guardrail_rejected", false)
    case ProviderError(c) => FailureDecision(c, "provider_" + c, c in RETRYABLE_CLASSES)
    case InvalidCall => FailureDecision("invalid_request", "invalid_request", false)
    case OtherError(c) =>
      if c != "unknown" then FailureDecision(c, "provider_" + c, c in RETRYABLE_CLASSES)
      else FailureDecision("unknown", "unknown_error", false)
  }

  /** What a failure is called: classified errors keep their class. */
  lemma FailureLabels(error: RunError)
    ensures var d := ClassifyFailure(error);
            match error
            case ProviderError(c) => d.failureClass == c && d.stopReason == "provider_" + c
            case OtherError(c) =>
              d.failureClass == c && d.stopReason == (if c == "unknown" then "unknown_error" else "provider_" + c)
            case GuardrailError(false) => d.failureClass == "guardrail" && d.stopReason == "guardrail_rejected"
            case GuardrailError(true) => d.failureClass == d.stopReason == "budget_exceeded"
            case BudgetError => d.failureClass == d.stopReason == "budget_exceeded"
            case LeaseLostError => d.failureClass == d.stopReason == "lease_lost"
            case TimeoutError => d.failureClass == d.stopReason == "timeout"
            case InvalidCall => d.failureClass == d.stopReason == "invalid_request"
  {
  }

  function ResolveRetryDecision(attempt: nat, maxAttempts: nat, failure: FailureDecision, canceled: bool,
                                cancelStopReason: string): RetryDecision
  {
    if attempt < maxAttempts && !canceled && failure.retryable then Retry
    else if canceled then Final(true, "canceled", cancelStopReason)
    else if failure.retryable && attempt >= maxAttempts then
      Final(false, failure.failureClass, "max_attempts_exhausted")
    else Final(false, failure.failureClass, failure.stopReason)
  }

  /** Delay before attempt `attempt + 1`, without jitter. */
  function RetryDelaySeconds(attempt: nat, backoff: real, maxBackoff: real): real {
    if backoff <= 0.0 then 0.0
    else
      var exponential := Doubled(backoff, if attempt > 0 then attempt - 1 else 0);
      if maxBackoff > 0.0 then MinReal(exponential, maxBackoff) else exponential
  }

  /** The first delay is the base, and each further one is twice the one before, up to the ceiling. */
  lemma RetryDelayDoubles(attempt: nat, backoff: real, maxBackoff: real)
    requires attempt >= 1 && backoff > 0.0
    ensures RetryDelaySeconds(1, backoff, maxBackoff)
         == if 0.0 < maxBackoff < backoff then maxBackoff else backoff
    ensures var next := 2.0 * RetryDelaySeconds(attempt, backoff, maxBackoff);
            RetryDelaySeconds(attempt + 1, backoff, maxBackoff)
            == if maxBackoff > 0.0 then MinReal(next, maxBackoff) else next
  {
    DoubledMonotone(backoff, 0, attempt - 1);
  }

  /** Delays never shrink from one attempt to the next and respect the configured ceiling. */
  lemma RetryDelayMonotoneAndCapped(a: nat, b: nat, backoff: real, maxBackoff: real)
    requires a <= b
    ensures 0.0 <= RetryDelaySeconds(a, backoff, maxBackoff) <= RetryDelaySeconds(b, backoff, maxBackoff)
    ensures maxBackoff > 0.0 ==> RetryDelaySeconds(b, backoff, maxBackoff) <= maxBackoff
    ensures backoff > 0.0 && maxBackoff >= backoff ==> RetryDelaySeconds(a, backoff, maxBackoff) >= backoff
  {
    if backoff > 0.0 {
      var i := if a > 0 then a - 1 else 0;
      var j := if b > 0 then b - 1 else 0;
      DoubledMonotone(backoff, 0, i);
      DoubledMonotone(backoff, i, j);
    }
  }
}
