/** Both sides of a park on token allowance: the packet a worker builds from the run directory it leaves, and
    the continuation a successor reads out of that packet. A reference is the content it names, because
    every read is checked against its hash. */
module AllowancePark {
  import opened Basics
  import opened RunStates
  import opened UsageLedger

  datatype Contract = Contract(
    maxAttempts: int, tokenBudget: Option<int>, runtimeBudget: int, perAttemptTimeout: int,
    pauseOn: set<Id>, stopOn: set<Id>, repoPath: Id, hasSetup: bool, rest: Id)

  // Repository path and budgets may differ between a run and its successor; nothing else may.
  function Semantic(c: Contract): Contract {
    c.(repoPath := 0, tokenBudget := None, maxAttempts := 0, runtimeBudget := 0)
  }

  datatype TokenPolicy = TokenPolicy(authoredCeiling: Option<int>, sharedAllowanceBinds: bool, inherited: Amount)

  // `work` stands for group, work item, task, graph version and target version together.
  datatype Envelope = Envelope(
    runId: Id, generation: int, work: Id, contract: Contract, contractHash: Id, policy: TokenPolicy)

  datatype Artifact =
    | StateFile(state: RunState)
    | ContractFile(contract: Contract)
    | PlanFile(plan: Id)
    | ExecutionFile(execution: Id, partial: bool)
    | VerifyFile(verification: Verification)
    | UsageFile(ledger: Ledger)

  // What the run directory holds, and which phases its event log says an attempt entered.
  datatype RunFiles = RunFiles(
    state: RunState, phases: map<(int, Phase), Artifact>, executeStarted: set<int>, executionFinished: set<int>)

  datatype Packet = Packet(
    runId: Id, generation: int, work: Id, contractHash: Id, policy: TokenPolicy, state: RunState, usageHighWater: int,
    nextPhase: Phase, plan: Option<Artifact>, execution: Option<Artifact>, verification: Option<Artifact>,
    stateRef: Artifact, contractRef: Artifact, usageRef: Artifact, artifacts: set<Artifact>)

  datatype Continuation = Continuation(
    nextPhase: Phase, plan: Option<Id>, execution: Option<Id>, recentFailures: seq<Failure>, lastEvidence: Option<Id>)

  // ---- the worker's side ----

  predicate Entered(d: RunFiles, attempt: int, phase: Phase) {
    match phase
    case Plan => true
    case Execute => attempt in d.executeStarted
    case Verify => attempt in d.executionFinished
  }

  function Retained(d: RunFiles, attempt: int, phase: Phase): Option<Artifact> {
    if Entered(d, attempt, phase) && (attempt, phase) in d.phases then Some(d.phases[(attempt, phase)]) else None
  }

  function AsSet(a: Option<Artifact>): set<Artifact> {
    if a == None then {} else {a.value}
  }

  // `captured` is the ledger as it stood at the boundary, if it parsed.
  function BuildPacket(e: Envelope, state: RunState, d: RunFiles, captured: Option<Ledger>, highWater: int): Option<Packet> {
    if state.waitingForAllowance == None || captured == None then None
    else
      var nextPhase := state.waitingForAllowance.value;
      var attempt := state.currentAttempt;
      var plan := if nextPhase == Plan then None else Retained(d, attempt, Plan);
      var verification := if nextPhase == Plan then Retained(d, attempt, Verify) else None;
      var execution := if nextPhase == Verify then Retained(d, attempt, Execute) else None;
      if (plan == None && nextPhase != Plan) || (nextPhase == Verify && execution == None)
         || (nextPhase == Plan && verification == None) then None
      else
        var retained := {StateFile(d.state)} + AsSet(Retained(d, attempt, Plan)) + AsSet(Retained(d, attempt, Execute))
                        + AsSet(Retained(d, attempt, Verify)) + {ContractFile(e.contract), UsageFile(captured.value)};
        Some(Packet(e.runId, e.generation, e.work, e.contractHash, e.policy, state, highWater, nextPhase, plan, execution,
                    verification, StateFile(d.state), ContractFile(e.contract), UsageFile(captured.value), retained))
  }

  // ---- the successor's side ----

  datatype ReadError = AuthorityMismatch | EvidenceInvalid | Unreachable | UsageInvalid | LineageInvalid | PhaseInvalid

  predicate SavedStateInSchema(s: RunState) {
    && s.currentAttempt > 0 && s.attemptsUsed > 0
    && s.budget.attemptsRemaining > 0 && s.budget.timeRemaining > 0
    && s.budget.tokens == Some(0) && s.budget.tokenStatus == Some(TokensKnown)
    && s.waitingForAllowance.Some?
  }

  function Consumed(inherited: Amount, local: Amount): Amount {
    Amount(inherited.tokens + local.tokens, inherited.activeMs + local.activeMs,
           inherited.attempts + local.attempts, inherited.sessions + local.sessions)
  }

  // The rejection being retried must still be retryable, by the same rule and the saved counters.
  predicate StillRetryable(contract: Contract, policy: TokenPolicy, saved: RunState, v: Verification) {
    && saved.recentFailures != []
    && var n := |saved.recentFailures| - 1;
    && saved.recentFailures[n] == v.failure
    && EvaluateStopDecision(
         false, false, v.pauseSignals * contract.pauseOn != {},
         policy.inherited.attempts + saved.currentAttempt,
         policy.inherited.attempts + saved.currentAttempt + saved.budget.attemptsRemaining,
         false, saved.recentFailures[..n], v) == Retryable
    && v.stopSignals * contract.stopOn == {}
  }

  function ReadContinuation(s: Envelope, predecessor: Id, p: Packet): Result<Continuation, ReadError> {
    if p.runId != predecessor || p.work != s.work || p.contractHash != s.contractHash then Err(AuthorityMismatch)
    else if p.state.waitingForAllowance != Some(p.nextPhase) then Err(EvidenceInvalid)
    else if p.contractRef !in p.artifacts || p.stateRef !in p.artifacts || p.usageRef !in p.artifacts then Err(Unreachable)
    else if !p.contractRef.ContractFile? || Semantic(p.contractRef.contract) != Semantic(s.contract) then Err(AuthorityMismatch)
    else if !p.stateRef.StateFile? || !SavedStateInSchema(p.stateRef.state) || p.stateRef.state != p.state then Err(EvidenceInvalid)
    else if !p.usageRef.UsageFile? then Err(UsageInvalid)
    else
      var local := ParseKnownWork(p.usageRef.ledger, p.runId, p.generation, p.usageHighWater);
      if local == None || local.value.attempts != p.state.attemptsUsed then Err(UsageInvalid)
      else if !SafeAmount(Consumed(p.policy.inherited, local.value))
           || !Leq(Consumed(p.policy.inherited, local.value), s.policy.inherited) then Err(LineageInvalid)
      else ReadPhase(p)
  }

  function ReadPhase(p: Packet): Result<Continuation, ReadError>
    requires p.contractRef.ContractFile?
  {
    if p.nextPhase == Plan then
      if p.plan != None || p.execution != None then Err(PhaseInvalid)
      else if p.verification == None || p.verification.value !in p.artifacts then Err(Unreachable)
      else if !p.verification.value.VerifyFile? then Err(PhaseInvalid)
      else
        var v := p.verification.value.verification;
        if v.approved || !v.safeToRetry || !StillRetryable(p.contractRef.contract, p.policy, p.state, v) then Err(PhaseInvalid)
        else Ok(Continuation(Plan, None, None, p.state.recentFailures, Some(v.evidence)))
    else if p.verification != None then Err(PhaseInvalid)
    else if p.plan == None || p.plan.value !in p.artifacts then Err(Unreachable)
    else if !p.plan.value.PlanFile? then Err(PhaseInvalid)
    else if p.nextPhase == Execute then
      if p.execution != None then Err(PhaseInvalid)
      else Ok(Continuation(Execute, Some(p.plan.value.plan), None, p.state.recentFailures, None))
    else if p.execution == None || p.execution.value !in p.artifacts then Err(Unreachable)
    else if !p.execution.value.ExecutionFile? || p.execution.value.partial then Err(PhaseInvalid)
    else Ok(Continuation(Verify, Some(p.plan.value.plan), Some(p.execution.value.execution), p.state.recentFailures, None))
  }

  // ---- what the loop leaves when it parks ----

  // The phase files the next phase starts from, and for a retry the rejection that led to it.
  predicate PhaseReady(state: RunState, nextPhase: Phase, d: RunFiles, contract: Contract, inheritedAttempts: int) {
    var attempt := state.currentAttempt;
    match nextPhase
    case Plan =>
      && attempt in d.executionFinished
      && (attempt, Phase.Verify) in d.phases && d.phases[(attempt, Phase.Verify)].VerifyFile?
      && var v := d.phases[(attempt, Phase.Verify)].verification;
      && state.recentFailures != [] && state.recentFailures[|state.recentFailures| - 1] == v.failure
      && v.pauseSignals * contract.pauseOn == {} && v.stopSignals * contract.stopOn == {}
      && EvaluateStopDecision(
           false, v.approved, false, attempt + inheritedAttempts, contract.maxAttempts + inheritedAttempts,
           state.budget.timeRemaining == 0, state.recentFailures[..|state.recentFailures| - 1], v) == Retryable
    case Execute => (attempt, Phase.Plan) in d.phases && d.phases[(attempt, Phase.Plan)].PlanFile?
    case Verify =>
      && (attempt, Phase.Plan) in d.phases && d.phases[(attempt, Phase.Plan)].PlanFile?
      && attempt in d.executeStarted
      && (attempt, Phase.Execute) in d.phases && d.phases[(attempt, Phase.Execute)].ExecutionFile?
      && !d.phases[(attempt, Phase.Execute)].partial
  }

  // `contract` is the contract the loop ran, that is the accepted one cut down to its grant.
  ghost predicate Parked(e: Envelope, contract: Contract, state: RunState, d: RunFiles, l: Ledger) {
    && d.state == state && state.waitingForAllowance.Some?
    && 0 < state.currentAttempt == state.attemptsUsed
    && state.budget.attemptsRemaining == Remaining(contract.maxAttempts, state.currentAttempt) > 0
    && state.budget.timeRemaining > 0 && state.budget.tokens == Some(0) && state.budget.tokenStatus == Some(TokensKnown)
    && contract.pauseOn == e.contract.pauseOn && contract.stopOn == e.contract.stopOn
    && PhaseReady(state, state.waitingForAllowance.value, d, contract, e.policy.inherited.attempts)
    && var local := ParseKnownWork(l, e.runId, e.generation, |l.events| + 1);
       local.Some? && local.value.attempts == state.attemptsUsed
  }

  function Expected(state: RunState, d: RunFiles): Continuation
    requires state.waitingForAllowance.Some?
  {
    var attempt := state.currentAttempt;
    var plan := if (attempt, Phase.Plan) in d.phases && d.phases[(attempt, Phase.Plan)].PlanFile?
                then Some(d.phases[(attempt, Phase.Plan)].plan) else None;
    match state.waitingForAllowance.value
    case Plan =>
      Continuation(Plan, None, None, state.recentFailures,
                   if (attempt, Phase.Verify) in d.phases && d.phases[(attempt, Phase.Verify)].VerifyFile?
                   then Some(d.phases[(attempt, Phase.Verify)].verification.evidence) else None)
    case Execute => Continuation(Execute, plan, None, state.recentFailures, None)
    case Verify =>
      Continuation(Verify, plan,
                   if (attempt, Phase.Execute) in d.phases && d.phases[(attempt, Phase.Execute)].ExecutionFile?
                   then Some(d.phases[(attempt, Phase.Execute)].execution) else None,
                   state.recentFailures, None)
  }

  // A successor may pick the work up: same work, same contract but for budgets and place, and credited
  // with at least everything consumed so far.
  ghost predicate MayContinue(s: Envelope, e: Envelope, l: Ledger) {
    && s.work == e.work && s.contractHash == e.contractHash && Semantic(s.contract) == Semantic(e.contract)
    && var local := ParseKnownWork(l, e.runId, e.generation, |l.events| + 1);
       local.Some? && Leq(Consumed(e.policy.inherited, local.value), s.policy.inherited)
  }

  // The re-decision over saved counters is the decision the loop made over its own.
  lemma SameDecision(e: Envelope, contract: Contract, state: RunState, d: RunFiles, l: Ledger)
    requires Parked(e, contract, state, d, l) && state.waitingForAllowance == Some(Plan)
    ensures StillRetryable(e.contract, e.policy, state, d.phases[(state.currentAttempt, Phase.Verify)].verification)
  {
    var v := d.phases[(state.currentAttempt, Phase.Verify)].verification;
    RetryableExactly(v.approved, false, state.currentAttempt + e.policy.inherited.attempts,
      contract.maxAttempts + e.policy.inherited.attempts, state.budget.timeRemaining == 0,
      state.recentFailures[..|state.recentFailures| - 1], v);
  }

  // The round trip. Whatever the loop parked, the packet is built, and a successor reads it back, as
  // exactly the next phase, plan, execution and failures the loop left, if and only if it may continue.
  lemma RoundTrip(e: Envelope, contract: Contract, state: RunState, d: RunFiles, l: Ledger, s: Envelope)
    requires Parked(e, contract, state, d, l) && SafeAmount(s.policy.inherited)
    requires Leq(ZERO, e.policy.inherited) && Leq(ZERO, l.work)
    ensures var packet := BuildPacket(e, state, d, Some(l), |l.events| + 1);
            && packet.Some?
            && var read := ReadContinuation(s, e.runId, packet.value);
            && (read.Ok? <==> MayContinue(s, e, l))
            && (read.Ok? ==> read.value == Expected(state, d))
            && (read.Err? ==> read.error == AuthorityMismatch || read.error == LineageInvalid)
  {
    var packet := BuildPacket(e, state, d, Some(l), |l.events| + 1);
    if state.waitingForAllowance == Some(Plan) {
      SameDecision(e, contract, state, d, l);
    }
    assert packet.Some?;
    assert ReadPhase(packet.value) == Ok(Expected(state, d));
  }
}
