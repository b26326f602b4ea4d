/** The persisted run state, its legal transitions, the stop decision after a verification and the token
    arithmetic of the budget snapshot. */
module RunStates {
  import opened Basics

  datatype RunStatus =
    | Queued | Planning | Executing | Verifying
    | Succeeded | BlockedWaitingHuman | Exhausted | Cancelled | Failed

  datatype TokenStatus = TokensKnown | TokensUnlimited | TokensUnknown

  predicate LegalTransition(from: RunStatus, to: RunStatus) {
    match from
    case Queued => to.Planning? || to.Cancelled?
    case Planning => to.Executing? || to.BlockedWaitingHuman? || to.Exhausted? || to.Cancelled? || to.Failed?
    case Executing => to.Verifying? || to.BlockedWaitingHuman? || to.Exhausted? || to.Cancelled? || to.Failed?
    case Verifying =>
      to.Planning? || to.Succeeded? || to.BlockedWaitingHuman? || to.Exhausted? || to.Cancelled? || to.Failed?
    case _ => false
  }

  // A status is terminal exactly when nothing legally follows it.
  predicate Terminal(status: RunStatus) {
    status.Succeeded? || status.BlockedWaitingHuman? || status.Exhausted? || status.Cancelled? || status.Failed?
  }

  predicate Resumable(status: RunStatus) {
    status.Planning? || status.Executing? || status.Verifying?
  }

  datatype Phase = Plan | Execute | Verify

  // What is remembered of a rejection.
  datatype Failure = Failure(category: Id, targets: Id, command: Option<Id>)

  datatype Budget = Budget(attemptsRemaining: int, timeRemaining: int, tokens: Option<int>, tokenStatus: Option<TokenStatus>)

  datatype RunState = RunState(
    status: RunStatus, currentAttempt: int, attemptsUsed: int, budget: Budget, recentFailures: seq<Failure>,
    waitingForAllowance: Option<Phase>)

  datatype Verification = Verification(
    approved: bool, failure: Failure, safeToRetry: bool, pauseSignals: set<Id>, stopSignals: set<Id>, evidence: Id)

  datatype Decision = Retryable | Ends(status: RunStatus)

  predicate Repeated(previous: Failure, current: Failure) {
    previous.category == current.category && (previous.targets == current.targets || previous.command == current.command)
  }

  function EvaluateStopDecision(
    humanCancelled: bool, successSatisfied: bool, humanGateHit: bool, attemptNumber: int, maxAttempts: int, budgetExceeded: bool,
    recentFailures: seq<Failure>, verifier: Verification): Decision
  {
    if humanCancelled then Ends(Cancelled)
    else if successSatisfied || verifier.approved then Ends(Succeeded)
    else if humanGateHit then Ends(BlockedWaitingHuman)
    else if attemptNumber >= maxAttempts then Ends(Exhausted)
    else if budgetExceeded then Ends(Exhausted)
    else if recentFailures != [] && Repeated(recentFailures[|recentFailures| - 1], verifier.failure) then Ends(Exhausted)
    else if !verifier.safeToRetry then Ends(Failed)
    else if attemptNumber > 1 then Ends(BlockedWaitingHuman)
    else Retryable
  }

  lemma TerminalExactly(status: RunStatus)
    ensures Terminal(status) <==> forall next: RunStatus :: !LegalTransition(status, next)
  {
    if !Terminal(status) {
      assert LegalTransition(status, Cancelled);
    }
  }

  // Only a first attempt, counted over the whole lineage, is ever retried.
  lemma RetryableExactly(success: bool, gate: bool, attempt: int, max: int, exceeded: bool, failures: seq<Failure>, v: Verification)
    ensures EvaluateStopDecision(false, success, gate, attempt, max, exceeded, failures, v) == Retryable <==>
            && !success && !v.approved && !gate && !exceeded && v.safeToRetry
            && attempt <= 1 && attempt < max
            && (failures == [] || !Repeated(failures[|failures| - 1], v.failure))
  {
  }

  // An approval is never overruled by a gate, a limit or a budget, and nothing else succeeds; what limits
  // alone stop is exactly what is exhausted.
  lemma StopDecisionExactly(
    cancelled: bool, success: bool, gate: bool, attempt: int, max: int, exceeded: bool, failures: seq<Failure>, v: Verification)
    ensures var decision := EvaluateStopDecision(cancelled, success, gate, attempt, max, exceeded, failures, v);
            var limited := attempt >= max || exceeded || (failures != [] && Repeated(failures[|failures| - 1], v.failure));
            var rejected := !cancelled && !success && !v.approved && !gate;
            && (decision == Ends(Cancelled) <==> cancelled)
            && (decision == Ends(Succeeded) <==> !cancelled && (success || v.approved))
            && (decision == Ends(Exhausted) <==> rejected && limited)
            && (decision == Ends(Failed) <==> rejected && !limited && !v.safeToRetry)
            && (decision == Ends(BlockedWaitingHuman) <==>
                  !cancelled && !success && !v.approved && (gate || (!limited && v.safeToRetry && attempt > 1)))
  {
  }

  function Remaining(limit: int, used: int): int {
    if limit - used > 0 then limit - used else 0
  }

  // An absent limit stays absent: it is never evidence of anything.
  function RemainingTokens(limit: Option<int>, used: int): Option<int> {
    if limit == None then None else Some(Remaining(limit.value, used))
  }

  // Charging in two steps is charging once: the floor at zero never gives anything back.
  lemma RemainingTwice(limit: int, x: int, y: int)
    requires x >= 0 && y >= 0
    ensures Remaining(Remaining(limit, x), y) == Remaining(limit, x + y)
  {
  }

  predicate BudgetExceeded(b: Budget) {
    b.timeRemaining == 0 || b.tokens == Some(0)
  }
}
