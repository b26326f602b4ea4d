/** The attempt loop of an ordinary run, as one invocation over a run directory that outlives it. Whatever the
    agent, the clock, the file system, the lease or a stop request do is a nondeterministic choice; a crash
    may end the invocation at any await, and a later one resumes from the directory. */
module AttemptLoop {
  import opened Basics
  import opened RunStates
  import opened ModelUsage
  import opened UsageLedger
  import opened AllowancePark

  datatype ThrowKind = HeartbeatStopped | LockStuck | LeaseStop | PhaseError(elapsed: nat, tokens: Option<nat>) | OtherError

  // How a stretch of the loop ends: go on, start the next attempt, return a state, throw, or die.
  datatype Flow = Next | Again | Return(final: RunState) | Throw(kind: ThrowKind) | Crash

  datatype PhaseOutcome =
    | TimedOut(elapsed: nat, tokens: Option<nat>, result: bool)
    | Finished(elapsed: nat, tokens: Option<nat>)
    | Raised(kind: ThrowKind)
    | Died

  datatype Execution = Execution(id: Id, partial: bool, sendToVerify: bool)

  // What one settled phase, or one setup, was charged.
  datatype Charge = Charge(attempt: int, phase: Option<Phase>, elapsed: nat, tokens: nat)

  function PhaseCharge(attempt: int, phase: Phase, elapsed: nat, tokens: Option<nat>): Charge {
    Charge(attempt, Some(phase), elapsed, if tokens == None then 0 else tokens.value)
  }

  function ElapsedSum(charges: seq<Charge>): nat {
    if charges == [] then 0 else ElapsedSum(charges[..|charges| - 1]) + charges[|charges| - 1].elapsed
  }

  function TokenSum(charges: seq<Charge>): nat {
    if charges == [] then 0 else TokenSum(charges[..|charges| - 1]) + charges[|charges| - 1].tokens
  }

  // The phases charged for, as often as they were charged.
  function PhasesOf(charges: seq<Charge>): multiset<(int, Phase)> {
    if charges == [] then multiset{}
    else
      var n := |charges| - 1;
      PhasesOf(charges[..n]) + if charges[n].phase == None then multiset{} else multiset{(charges[n].attempt, charges[n].phase.value)}
  }

  lemma ChargeAdds(charges: seq<Charge>, c: Charge)
    ensures ElapsedSum(charges + [c]) == ElapsedSum(charges) + c.elapsed
    ensures TokenSum(charges + [c]) == TokenSum(charges) + c.tokens
    ensures PhasesOf(charges + [c]) ==
              PhasesOf(charges) + if c.phase == None then multiset{} else multiset{(c.attempt, c.phase.value)}
    ensures c.phase == None ==> PhasesOf(charges + [c]) == PhasesOf(charges)
  {
    assert (charges + [c])[..|charges|] == charges;
  }

  predicate Ascends(attempts: seq<int>) {
    forall i, j :: 0 <= i < j < |attempts| ==> attempts[i] < attempts[j]
  }

  lemma {:induction false} AscendsCount(attempts: seq<int>)
    requires Ascends(attempts) && forall i :: 0 <= i < |attempts| ==> 1 <= attempts[i]
    ensures attempts != [] ==> |attempts| <= attempts[|attempts| - 1]
  {
    if |attempts| > 1 {
      AscendsCount(attempts[..|attempts| - 1]);
    }
  }

  predicate SoundCounters(s: RunState, maxAttempts: int) {
    && 0 <= s.attemptsUsed && (s.attemptsUsed > 0 ==> s.currentAttempt == s.attemptsUsed)
    && 0 <= s.budget.attemptsRemaining <= Remaining(maxAttempts, s.attemptsUsed)
    && 0 <= s.budget.timeRemaining && (s.budget.tokens.Some? ==> 0 <= s.budget.tokens.value)
  }

  function Consume(s: RunState, maxAttempts: int, attempt: int): RunState {
    s.(currentAttempt := attempt, attemptsUsed := attempt,
       budget := s.budget.(attemptsRemaining := Remaining(maxAttempts, attempt)))
  }

  function ApplyPhaseUsage(b: Budget, elapsed: nat, tokens: Option<nat>): Budget {
    b.(timeRemaining := Remaining(b.timeRemaining, elapsed),
       tokens := RemainingTokens(b.tokens, if tokens == None then 0 else tokens.value),
       tokenStatus := if b.tokenStatus == None then None else if tokens == None then Some(TokensUnknown) else b.tokenStatus)
  }

  // A phase's charge comes off the remainders of the starting snapshot.
  lemma ChargeComesOff(start: Budget, b: Budget, charges: seq<Charge>, c: Charge, tokens: Option<nat>)
    requires start.timeRemaining >= 0 && (start.tokens.Some? ==> start.tokens.value >= 0)
    requires b.timeRemaining == Remaining(start.timeRemaining, ElapsedSum(charges))
    requires b.tokens == RemainingTokens(start.tokens, TokenSum(charges))
    requires c.tokens == if tokens == None then 0 else tokens.value
    ensures var next := ApplyPhaseUsage(b, c.elapsed, tokens);
            && next.timeRemaining == Remaining(start.timeRemaining, ElapsedSum(charges + [c]))
            && next.tokens == RemainingTokens(start.tokens, TokenSum(charges + [c]))
  {
    ChargeAdds(charges, c);
    RemainingTwice(start.timeRemaining, ElapsedSum(charges), c.elapsed);
    if start.tokens.Some? {
      RemainingTwice(start.tokens.value, TokenSum(charges), c.tokens);
    }
  }

  /** What survives the process. `reached` lists, in order, the attempts for which an agent was launched. */
  class RunDirectory {
    const contract: Contract
    var files: RunFiles
    ghost var reached: seq<int>

    ghost predicate Valid()
      reads this
    {
      && Ascends(reached)
      && (forall i :: 0 <= i < |reached| ==> 1 <= reached[i] <= contract.maxAttempts && reached[i] <= files.state.attemptsUsed)
      && SoundCounters(files.state, contract.maxAttempts)
    }

    constructor (contract: Contract, tokenStatus: Option<TokenStatus>, failures: seq<Failure>)
      requires contract.maxAttempts >= 0 && contract.runtimeBudget >= 0
      requires contract.tokenBudget.Some? ==> contract.tokenBudget.value >= 0
      ensures Valid() && this.contract == contract && reached == []
    {
      this.contract := contract;
      files := RunFiles(
        RunState(Planning, 0, 0, Budget(contract.maxAttempts, contract.runtimeBudget, contract.tokenBudget, tokenStatus), failures, None),
        map[], {}, {});
      reached := [];
    }

    // Over any sequence of invocations and crashes, at most maxAttempts attempts ever reach an agent,
    // and none of them twice.
    lemma AttemptsBounded()
      requires Valid() && contract.maxAttempts >= 0
      ensures |reached| <= contract.maxAttempts
      ensures forall i, j :: 0 <= i < j < |reached| ==> reached[i] != reached[j]
    {
      AscendsCount(reached);
    }
  }

  class LoopRun {
    const dir: RunDirectory
    const worker: Worker
    const envelope: Option<Envelope>
    const sessions: Option<int>
    const continuation: Option<Continuation>
    const start: Budget
    var state: RunState
    var active: Option<Phase>
    var settled: set<(int, Phase)>
    var observedTokens: int
    var observationsKnown: bool
    ghost var charges: seq<Charge>
    ghost var answers: seq<Verification>   // what the verifier answered, attempt by attempt
    ghost var launched: int   // the last attempt this invocation launched an agent for

    ghost function Frame(): set<object> {
      {this, dir, worker, worker.accumulator}
    }

    ghost predicate Valid()
      reads this, dir, worker, worker.accumulator
    {
      && dir.Valid() && worker.Valid() && Configured()
      && Counted() && Charged() && Measured() && Truthful()
    }

    ghost predicate Configured() {
      && (envelope.Some? ==>
            && worker.runId == envelope.value.runId && worker.generation == envelope.value.generation && worker.strict
            && dir.contract.pauseOn == envelope.value.contract.pauseOn && dir.contract.stopOn == envelope.value.contract.stopOn
            && Leq(ZERO, envelope.value.policy.inherited))
      && (continuation.Some? ==>
            && (continuation.value.nextPhase != Plan ==> continuation.value.plan.Some?)
            && (continuation.value.nextPhase == Plan ==> continuation.value.plan == None)
            && (continuation.value.nextPhase == Verify ==> continuation.value.execution.Some?))
      && start.timeRemaining >= 0 && (start.tokens.Some? ==> start.tokens.value >= 0)
    }

    ghost predicate Counted()
      reads this`state, this`settled, dir, worker`lastAttempt
    {
      && SoundCounters(state, dir.contract.maxAttempts)
      && dir.files.state.attemptsUsed <= state.attemptsUsed
      && worker.lastAttempt <= state.attemptsUsed
      && state.waitingForAllowance == None
      && (forall key :: key in settled ==> key.0 <= state.attemptsUsed)
    }

    // The remainders are the starting snapshot less every charge, floored at zero, and every settled phase
    // of an attempt is charged exactly once.
    ghost predicate Charged()
      reads this`state, this`settled, this`charges
    {
      && state.budget.timeRemaining == Remaining(start.timeRemaining, ElapsedSum(charges))
      && state.budget.tokens == RemainingTokens(start.tokens, TokenSum(charges))
      && PhasesOf(charges) == multiset(settled)
    }

    ghost predicate Measured()
      reads this`state, this`observationsKnown, worker`usageKnown
    {
      && observationsKnown == worker.usageKnown
      && (envelope.Some? && observationsKnown && state.budget.tokens.Some? ==> state.budget.tokenStatus == Some(TokensKnown))
    }

    // A run is a success only on the word of a verifier that stopped for nothing.
    ghost predicate Truthful()
      reads this`state, this`answers
    {
      state.status == Succeeded ==> Approved()
    }

    ghost predicate Approved()
      reads this`answers
    {
      answers != [] && Accepts(answers[|answers| - 1])
    }

    predicate Accepts(v: Verification) {
      v.approved && v.pauseSignals * dir.contract.pauseOn == {} && v.stopSignals * dir.contract.stopOn == {}
    }

    // What the loop may return: a parked state is one the successor's reader will accept.
    ghost predicate Returnable(final: RunState)
      reads dir, worker`ledger
    {
      final.waitingForAllowance.Some? ==>
        envelope.Some? && Parked(envelope.value, dir.contract, final, dir.files, worker.ledger)
    }

    ghost predicate Fine(flow: Flow)
      reads this`state, this`answers, dir, worker`ledger
    {
      flow.Return? ==>
        Returnable(flow.final) && flow.final.budget == state.budget && (flow.final.status == Succeeded ==> Approved())
    }

    constructor (dir: RunDirectory, initial: RunState, envelope: Option<Envelope>, sessions: Option<int>,
                 continuation: Option<Continuation>, runId: Id, generation: int)
      requires dir.Valid() && SoundCounters(initial, dir.contract.maxAttempts)
      requires dir.files.state.attemptsUsed <= initial.attemptsUsed && initial.waitingForAllowance == None
      requires initial.status != Succeeded && 1 <= generation <= MAX_SAFE
      requires envelope.Some? ==>
                 && runId == envelope.value.runId && generation == envelope.value.generation
                 && dir.contract.pauseOn == envelope.value.contract.pauseOn && dir.contract.stopOn == envelope.value.contract.stopOn
                 && Leq(ZERO, envelope.value.policy.inherited)
                 && (initial.budget.tokens.Some? ==> initial.budget.tokenStatus == Some(TokensKnown))
      requires continuation.Some? ==>
                 && (continuation.value.nextPhase != Plan ==> continuation.value.plan.Some?)
                 && (continuation.value.nextPhase == Plan ==> continuation.value.plan == None)
                 && (continuation.value.nextPhase == Verify ==> continuation.value.execution.Some?)
      ensures Valid() && fresh(worker) && fresh(worker.accumulator)
      ensures this.dir == dir && state == initial && start == initial.budget && charges == [] && this.envelope == envelope
    {
      this.dir, this.envelope, this.sessions, this.continuation := dir, envelope, sessions, continuation;
      start, state := initial.budget, initial;
      active, settled, observedTokens, observationsKnown, charges, launched, answers := None, {}, 0, true, [], 0, [];
      worker := new Worker(runId, generation, envelope.Some?);
    }

    // An await that changes nothing here: an event, a lease check, a git command.
    method Await() returns (flow: Flow)
      ensures flow == Next || flow == Crash || flow == Throw(LeaseStop) || flow == Throw(OtherError)
           || flow == Throw(HeartbeatStopped) || flow == Throw(LockStuck)
    {
      if {
        case true => flow := Next;
        case true => flow := Crash;
        case true => flow := Throw(LeaseStop);
        case true => flow := Throw(HeartbeatStopped);
        case true => flow := Throw(LockStuck);
        case true => flow := Throw(OtherError);
      }
    }

    // loop-state.json is replaced atomically: the write lands or it does not.
    method WriteState(s: RunState) returns (flow: Flow)
      requires dir.Valid() && SoundCounters(s, dir.contract.maxAttempts) && dir.files.state.attemptsUsed <= s.attemptsUsed
      modifies dir`files
      ensures dir.Valid()
      ensures dir.files == old(dir.files) || dir.files == old(dir.files).(state := s)
      ensures flow == Next ==> dir.files == old(dir.files).(state := s)
      ensures flow == Next || flow == Crash || flow == Throw(OtherError)
    {
      if {
        case true => flow := Crash;
        case true => flow := Throw(OtherError);
        case true =>
          dir.files := dir.files.(state := s);
          if {
            case true => flow := Crash;
            case true => flow := Next;
          }
      }
    }

    // The budget's side of settling a phase.
    method ChargePhase(phase: Phase, attempt: int, elapsed: nat, tokens: Option<nat>)
      requires Counted() && Charged() && Configured() && attempt == state.attemptsUsed && (attempt, phase) !in settled
      modifies this`state, this`active, this`settled, this`charges
      ensures Counted() && Charged() && SameRun(old(state), state)
      ensures settled == old(settled) + {(attempt, phase)}
      ensures charges == old(charges) + [PhaseCharge(attempt, phase, elapsed, tokens)]
      ensures state.budget.tokens.Some? <==> old(state).budget.tokens.Some?
      ensures tokens.Some? ==> state.budget.tokenStatus == old(state).budget.tokenStatus
    {
      var charge := PhaseCharge(attempt, phase, elapsed, tokens);
      ChargeAdds(charges, charge);
      ChargeComesOff(start, state.budget, charges, charge, tokens);
      state := state.(budget := ApplyPhaseUsage(state.budget, elapsed, tokens));
      assert multiset(settled + {(attempt, phase)}) == multiset(settled) + multiset{(attempt, phase)};
      settled := settled + {(attempt, phase)};
      charges := charges + [charge];
      if active == Some(phase) {
        active := None;
      }
    }

    // Charges one phase, once, and tells the worker.
    method SettlePhase(phase: Phase, attempt: int, elapsed: nat, tokens: Option<nat>) returns (flow: Flow)
      requires Valid() && attempt == state.attemptsUsed && attempt >= 1
      modifies this`state, this`active, this`settled, this`observedTokens, this`observationsKnown, this`charges
      modifies worker, worker.accumulator
      ensures Valid() && (flow == Next || flow == Throw(OtherError))
      ensures SameRun(old(state), state)
      ensures settled == old(settled) || settled == old(settled) + {(attempt, phase)}
      ensures (attempt, phase) in old(settled) ==> flow == Next && charges == old(charges) && state == old(state)
      ensures flow == Next && (attempt, phase) !in old(settled) ==>
                && SettledLast() && (attempt, phase) in settled
                && charges == old(charges) + [PhaseCharge(attempt, phase, elapsed, tokens)]
    {
      if (attempt, phase) in settled {
        return Next;
      }
      if tokens.Some? {
        observedTokens := observedTokens + tokens.value;
        if observedTokens > MAX_SAFE {
          return Throw(OtherError);
        }
      }
      ChargePhase(phase, attempt, elapsed, tokens);
      var told := TellWorker(phase, attempt, elapsed, tokens);
      observationsKnown := observationsKnown && tokens.Some?;
      flow := if told then Next else Throw(OtherError);
    }

    method TellWorker(phase: Phase, attempt: int, elapsed: nat, tokens: Option<nat>) returns (told: bool)
      requires worker.Valid() && 1 <= attempt && worker.lastAttempt <= attempt
      modifies worker, worker.accumulator
      ensures worker.Valid() && (worker.usageKnown <==> old(worker.usageKnown) && tokens.Some?)
      ensures worker.lastAttempt == old(worker.lastAttempt) || worker.lastAttempt == attempt
      ensures told ==> worker.ledger.events != [] && worker.lastAttempt == attempt
    {
      var modelUsage: Option<seq<Usage>>, evidence: Id := *, *;
      var r := worker.OnPhaseSettled(Settled(phase, attempt, elapsed, tokens, modelUsage, evidence));
      told := r.Ok?;
    }

    // The attempt under way is on disk, and no other invocation has launched an agent for it.
    ghost predicate Running(attempt: int)
      reads this`state, this`launched, dir
    {
      && 1 <= attempt <= dir.contract.maxAttempts
      && (launched == attempt || dir.reached == [] || dir.reached[|dir.reached| - 1] < attempt)
      && attempt == state.attemptsUsed == dir.files.state.attemptsUsed
      && state.budget.attemptsRemaining == Remaining(dir.contract.maxAttempts, attempt)
    }

    function InheritedAttempts(): int {
      if envelope == None then 0 else envelope.value.policy.inherited.attempts
    }

    function WaitingState(nextPhase: Phase, failure: Option<Failure>): RunState
      reads this`state
    {
      state.(status := BlockedWaitingHuman, waitingForAllowance := Some(nextPhase),
             recentFailures := state.recentFailures + (if failure == None then [] else [failure.value]))
    }

    // Time, attempts and the task's own token ceiling would let the run go on; only what it shares is spent.
    predicate OnlyAllowanceBinds()
      reads this`state, this`observationsKnown, this`observedTokens
    {
      && envelope.Some? && envelope.value.policy.sharedAllowanceBinds && observationsKnown
      && state.budget.tokens == Some(0) && state.budget.timeRemaining != 0 && state.budget.attemptsRemaining != 0
      && var total := envelope.value.policy.inherited.tokens + observedTokens;
      && total <= MAX_SAFE
      && (envelope.value.policy.authoredCeiling.Some? ==> total < envelope.value.policy.authoredCeiling.value)
    }

    // Parks on a depleted shared allowance, exactly if that is all that stops the run.
    method ParkAllowance(nextPhase: Phase, failure: Option<Failure>) returns (parked: Option<RunState>, flow: Flow)
      requires Valid() && Running(state.attemptsUsed)
      requires state.budget.tokens == Some(0) ==>
                 && SettledLast()
                 && PhaseReady(WaitingState(nextPhase, failure), nextPhase, dir.files, dir.contract, InheritedAttempts())
      modifies dir`files
      ensures Valid() && Running(state.attemptsUsed) && Fine(flow) && (flow.Next? || flow.Throw? || flow.Crash?)
      ensures dir.files == old(dir.files).(state := dir.files.state)
      ensures flow == Next ==> (parked.Some? <==> OnlyAllowanceBinds())
      ensures flow == Next && parked.Some? ==>
                && parked.value == WaitingState(nextPhase, failure) && Returnable(parked.value)
                && parked.value.budget == state.budget && parked.value.status == BlockedWaitingHuman
    {
      parked, flow := None, Next;
      if envelope == None || !observationsKnown || state.budget.tokens != Some(0) || state.budget.timeRemaining == 0
        || state.budget.attemptsRemaining == 0 || !envelope.value.policy.sharedAllowanceBinds {
        return;
      }
      var total := envelope.value.policy.inherited.tokens + observedTokens;
      if total > MAX_SAFE || RemainingTokens(envelope.value.policy.authoredCeiling, total) == Some(0) {
        return;
      }
      flow := ParkNow(nextPhase, failure);
      if flow == Next {
        parked := Some(WaitingState(nextPhase, failure));
      }
    }

    method ParkNow(nextPhase: Phase, failure: Option<Failure>) returns (flow: Flow)
      requires Valid() && Running(state.attemptsUsed) && OnlyAllowanceBinds() && SettledLast()
      requires PhaseReady(WaitingState(nextPhase, failure), nextPhase, dir.files, dir.contract, InheritedAttempts())
      modifies dir`files
      ensures Valid() && Running(state.attemptsUsed) && (flow.Next? || flow.Throw? || flow.Crash?)
      ensures dir.files == old(dir.files).(state := dir.files.state)
      ensures flow == Next ==> Returnable(WaitingState(nextPhase, failure))
    {
      if !LegalTransition(state.status, BlockedWaitingHuman) {
        return Throw(OtherError);
      }
      flow := WriteState(WaitingState(nextPhase, failure));
      if flow == Next {
        MayReturnParked(nextPhase, failure);
      }
    }

    lemma MayReturnParked(nextPhase: Phase, failure: Option<Failure>)
      requires Valid() && Running(state.attemptsUsed) && OnlyAllowanceBinds() && SettledLast()
      requires dir.files.state == WaitingState(nextPhase, failure)
      requires PhaseReady(WaitingState(nextPhase, failure), nextPhase, dir.files, dir.contract, InheritedAttempts())
      ensures Returnable(WaitingState(nextPhase, failure))
    {
      ParkedLedgerParses(worker.ledger, worker.runId, worker.generation, worker.cumulativeTokens, worker.lastAttempt, worker.usageKnown);
    }

    method PersistTerminal(to: RunStatus) returns (flow: Flow)
      requires Valid() && (to == Succeeded ==> Approved())
      modifies this`state, dir`files
      ensures Valid() && (flow.Next? || flow.Throw? || flow.Crash?)
      ensures state == old(state) || state == old(state).(status := to)
      ensures flow == Next ==> state.status == to
      ensures dir.files == old(dir.files).(state := dir.files.state)
    {
      if !LegalTransition(state.status, to) {
        return Throw(OtherError);
      }
      flow := Await();
      if flow != Next {
        return;
      }
      flow := WriteState(state.(status := to));
      if flow == Next {
        state := state.(status := to);
      }
    }

    // A terminal decision, a last lease check, and the worktree comes off.
    method Conclude(to: RunStatus) returns (flow: Flow)
      requires Valid() && (to == Succeeded ==> Approved())
      modifies this`state, dir`files
      ensures Valid() && Fine(flow) && !flow.Next? && !flow.Again? && state.attemptsUsed == old(state).attemptsUsed
      ensures flow.Return? ==> flow.final.status == to && flow.final.waitingForAllowance == None
    {
      flow := PersistTerminal(to);
      if flow == Next {
        flow := Await();
      }
      if flow == Next {
        flow := Return(state);
      }
    }

    method HandoffBoundary() returns (flow: Flow)
      requires Valid()
      modifies dir`files
      ensures Valid() && Fine(flow) && !flow.Next? && !flow.Again?
    {
      flow := Await();
      if flow == Next {
        flow := WriteState(state);
      }
      if flow == Next {
        flow := Return(state);
      }
    }

    predicate Holds(attempt: int, phase: Phase, file: Artifact)
      reads dir`files
    {
      (attempt, phase) in dir.files.phases && dir.files.phases[(attempt, phase)] == file
    }

    method PutFile(attempt: int, phase: Phase, file: Artifact) returns (flow: Flow)
      requires Valid()
      modifies dir`files
      ensures Valid() && (flow.Next? || flow.Throw? || flow.Crash?)
      ensures dir.files == old(dir.files) || dir.files == old(dir.files).(phases := old(dir.files).phases[(attempt, phase) := file])
      ensures flow == Next ==> Holds(attempt, phase, file)
    {
      flow := Await();
      if flow == Next {
        dir.files := dir.files.(phases := dir.files.phases[(attempt, phase) := file]);
      }
    }

    // Phase files of one attempt, written one after another; without a plan there is nothing to write.
    method WriteArtifacts(attempt: int, plan: Option<Id>, execution: Option<Execution>, verification: Option<Verification>)
      returns (flow: Flow)
      requires Valid()
      modifies dir`files
      ensures Valid() && (flow.Next? || flow.Throw? || flow.Crash?)
      ensures dir.files == old(dir.files).(phases := dir.files.phases)
      ensures flow == Next && plan.Some? ==> Holds(attempt, Phase.Plan, PlanFile(plan.value))
      ensures flow == Next && plan.Some? && execution.Some? ==>
                Holds(attempt, Phase.Execute, ExecutionFile(execution.value.id, execution.value.partial))
      ensures flow == Next && plan.Some? && verification.Some? ==> Holds(attempt, Phase.Verify, VerifyFile(verification.value))
    {
      flow := Await();
      if flow != Next || plan == None {
        return;
      }
      flow := PutFile(attempt, Phase.Plan, PlanFile(plan.value));
      if flow == Next && execution.Some? {
        flow := PutFile(attempt, Phase.Execute, ExecutionFile(execution.value.id, execution.value.partial));
      }
      if flow == Next && verification.Some? {
        flow := PutFile(attempt, Phase.Verify, VerifyFile(verification.value));
      }
    }

    // Launches one agent phase under a time limit; without time left nothing is launched.
    method RunPhase(attempt: int, timeout: int) returns (outcome: PhaseOutcome)
      requires Valid() && Running(attempt)
      modifies this`launched, dir`reached
      ensures Valid() && Running(attempt)
      ensures old(dir.reached) <= dir.reached <= old(dir.reached) + [attempt]
      ensures outcome.TimedOut? ==> outcome.elapsed >= timeout
    {
      if timeout <= 0 {
        return TimedOut(0, None, false);
      }
      if launched != attempt {
        dir.reached, launched := dir.reached + [attempt], attempt;
      }
      var elapsed: nat, tokens: Option<nat>, result: bool := *, *, *;
      if {
        case true => outcome := TimedOut(if elapsed < timeout then timeout else elapsed, tokens, result);
        case true => outcome := Finished(elapsed, tokens);
        case true => outcome := Raised(PhaseError(elapsed, tokens));
        case true => outcome := Died;
      }
    }

    // The common start of a phase: a lease check, then the agent under its time limit. With `violation`, a
    // timeout is an error of the agent, to be settled by whoever catches it.
    method Launch(phase: Phase, attempt: int, violation: bool) returns (flow: Flow, outcome: PhaseOutcome)
      requires Valid() && Running(attempt)
      modifies this`active, this`launched, dir`reached
      ensures old(dir.reached) <= dir.reached
      ensures Valid() && Running(attempt) && (flow.Next? || flow.Throw? || flow.Crash?)
      ensures flow == Next ==> outcome.TimedOut? || outcome.Finished?
      ensures flow == Next && outcome.TimedOut? ==> outcome.elapsed >= PhaseTimeout()
    {
      outcome := Died;
      flow := Await();
      if flow != Next {
        return;
      }
      active := Some(phase);
      outcome := RunPhase(attempt, PhaseTimeout());
      if outcome.Died? {
        flow := Crash;
      }
      if outcome.Raised? {
        flow := Throw(outcome.kind);
      }
      if outcome.TimedOut? && violation {
        flow := Throw(PhaseError(outcome.elapsed, outcome.tokens));
      }
    }

    // A phase from launch to settlement. With `blind`, what a timed-out phase spent is not known.
    method Measure(phase: Phase, attempt: int, blind: bool, violation: bool) returns (flow: Flow, outcome: PhaseOutcome)
      requires Valid() && Running(attempt) && (attempt, phase) !in settled
      modifies this`state, this`active, this`settled, this`observedTokens, this`observationsKnown, this`charges, this`launched
      modifies dir`reached, worker, worker.accumulator
      ensures old(dir.reached) <= dir.reached
      ensures Valid() && Running(attempt) && (flow.Next? || flow.Throw? || flow.Crash?) && SameRun(old(state), state)
      ensures settled <= old(settled) + {(attempt, phase)}
      ensures flow.Throw? && flow.kind.PhaseError? ==> settled == old(settled)
      ensures flow == Next ==>
                && (outcome.TimedOut? || outcome.Finished?) && SettledLast()
                && settled == old(settled) + {(attempt, phase)}
                && charges == old(charges) + [PhaseCharge(attempt, phase, outcome.elapsed,
                                                          if outcome.TimedOut? && blind then None else outcome.tokens)]
    {
      flow, outcome := Launch(phase, attempt, violation);
      if flow != Next {
        return;
      }
      flow := SettlePhase(phase, attempt, outcome.elapsed, if outcome.TimedOut? && blind then None else outcome.tokens);
    }

    function PhaseTimeout(): int
      reads this`state
    {
      if dir.contract.perAttemptTimeout < state.budget.timeRemaining then dir.contract.perAttemptTimeout
      else state.budget.timeRemaining
    }

    method StopAtBoundary(attempt: int, plan: Option<Id>, execution: Option<Execution>) returns (flow: Flow)
      requires Valid()
      modifies dir`files
      ensures Valid() && Fine(flow) && !flow.Next? && !flow.Again?
    {
      flow := WriteArtifacts(attempt, plan, execution, None);
      if flow == Next {
        flow := HandoffBoundary();
      }
    }

    // The budget is spent after a phase: keep its result, park if that is allowed, else the run is over.
    method OutOfBudget(attempt: int, plan: Id, execution: Option<Execution>, nextPhase: Phase) returns (flow: Flow)
      requires Valid() && Running(attempt) && (nextPhase == Execute || (nextPhase == Verify && execution.Some?))
      requires state.budget.tokens == Some(0) ==> SettledLast() && (nextPhase == Verify ==> attempt in dir.files.executeStarted)
      modifies this`state, dir`files
      ensures Valid() && Fine(flow) && !flow.Next? && !flow.Again? && state.attemptsUsed == attempt
      ensures flow.Return? ==>
                if old(OnlyAllowanceBinds()) && (nextPhase == Execute || !execution.value.partial)
                then flow.final.waitingForAllowance == Some(nextPhase)
                else flow.final.waitingForAllowance == None && flow.final.status == Exhausted
    {
      flow := WriteArtifacts(attempt, Some(plan), execution, None);
      if flow != Next {
        return;
      }
      var parked: Option<RunState> := None;
      if nextPhase == Execute || !execution.value.partial {
        parked, flow := ParkAllowance(nextPhase, None);
      }
      if flow == Next {
        if parked.Some? {
          flow := Return(parked.value);
        } else {
          flow := Conclude(Exhausted);
        }
      }
    }

    // Setup's measured time comes off the remaining time before the first phase.
    method ChargeSetup(attempt: int, elapsed: nat)
      requires Counted() && Charged() && Configured()
      modifies this`state, this`charges
      ensures Counted() && Charged() && SameRun(old(state), state)
      ensures charges == old(charges) + [Charge(attempt, None, elapsed, 0)]
      ensures state.budget == old(state).budget.(timeRemaining := Remaining(old(state).budget.timeRemaining, elapsed))
    {
      RemainingTwice(start.timeRemaining, ElapsedSum(charges), elapsed);
      var charge := Charge(attempt, None, elapsed, 0);
      ChargeAdds(charges, charge);
      state := state.(budget := state.budget.(timeRemaining := Remaining(state.budget.timeRemaining, elapsed)));
      charges := charges + [charge];
    }

    // Runs the setup commands and tells the worker; "thrown" covers an error that is no plain exit.
    method RunSetup(attempt: int) returns (flow: Flow, thrown: bool, ok: bool)
      requires Valid() && Running(attempt)
      modifies this`state, this`charges, worker
      ensures Valid() && Running(attempt) && (flow.Next? || flow.Throw? || flow.Crash?)
      ensures SameRun(old(state), state) && state.budget.tokens == old(state).budget.tokens
      ensures flow == Next ==>
                && |charges| == |old(charges)| + 1 && old(charges) <= charges
                && charges[|charges| - 1].phase == None && charges[|charges| - 1].attempt == attempt
    {
      thrown, ok := *, *;
      flow := Await();
      if flow != Next {
        return;
      }
      var elapsed: nat, evidence: Id := *, *;
      ChargeSetup(attempt, elapsed);
      if * {
        flow := Throw(LeaseStop);
        return;
      }
      var r := worker.OnSetupEnded(attempt, elapsed, evidence);
      if r.Err? {
        flow := Throw(OtherError);
      }
    }

    method SetupStage(attempt: int, plan: Option<Id>, execution: Option<Execution>) returns (flow: Flow)
      requires Valid() && Running(attempt)
      modifies this`state, this`charges, dir`files, worker
      ensures Valid() && Fine(flow) && !flow.Again? && state.attemptsUsed == attempt
      ensures flow == Next ==> Running(attempt) && SameRun(old(state), state) && state.budget.tokens == old(state).budget.tokens
    {
      if !dir.contract.hasSetup {
        return Next;
      }
      var thrown, ok;
      flow, thrown, ok := RunSetup(attempt);
      if flow != Next {
        return;
      }
      var handoff: bool, outOfTime: bool := *, *;
      if thrown {
        if handoff {
          flow := StopAtBoundary(attempt, plan, execution);
        } else {
          flow := Throw(OtherError);
        }
        return;
      }
      if !ok {
        flow := Conclude(if outOfTime then Exhausted else Failed);
        return;
      }
      flow := WriteState(state);
      if flow == Next && handoff {
        flow := StopAtBoundary(attempt, plan, execution);
      }
    }

    method PlanStage(attempt: int) returns (flow: Flow, plan: Option<Id>)
      requires Valid() && Running(attempt) && (attempt, Phase.Plan) !in settled
      modifies this`state, this`active, this`settled, this`observedTokens, this`observationsKnown, this`charges, this`launched
      modifies dir, worker, worker.accumulator
      ensures old(dir.reached) <= dir.reached
      ensures Valid() && Fine(flow) && !flow.Again? && state.attemptsUsed == attempt
      ensures settled <= old(settled) + {(attempt, Phase.Plan)}
      ensures flow == Next ==> plan.Some? && Running(attempt) && !BudgetExceeded(state.budget) && SameRun(old(state), state)
      ensures flow == Next ==> (attempt, Phase.Plan) in settled
    {
      plan := None;
      var aborted: bool, requested: bool, made: Id := *, *, *;
      var outcome;
      flow, outcome := Measure(Phase.Plan, attempt, !aborted, false);
      if flow != Next {
        return;
      }
      plan := Some(made);
      flow := JudgePlan(attempt, made, aborted, outcome.TimedOut?, requested);
    }

    // What a settled plan phase leads to short of execution.
    method JudgePlan(attempt: int, plan: Id, aborted: bool, timedOut: bool, requested: bool) returns (flow: Flow)
      requires Valid() && Running(attempt) && SettledLast()
      modifies this`state, dir`files
      ensures Valid() && Fine(flow) && !flow.Again? && state.attemptsUsed == attempt
      ensures flow == Next ==> Running(attempt) && !BudgetExceeded(state.budget) && state == old(state) && !aborted && !timedOut
      ensures flow.Return? && !aborted && timedOut ==> flow.final.status == Exhausted
    {
      if aborted {
        flow := HandoffBoundary();
      } else if timedOut {
        flow := Conclude(Exhausted);
      } else if requested {
        flow := StopAtBoundary(attempt, Some(plan), None);
      } else if BudgetExceeded(state.budget) {
        flow := OutOfBudget(attempt, plan, None, Phase.Execute);
      } else {
        flow := Next;
      }
    }

    // Moves the run to its next working status and puts it on disk.
    method Enter(attempt: int, status: RunStatus) returns (flow: Flow)
      requires Valid() && Running(attempt) && status != Succeeded
      modifies this`state, dir`files
      ensures Valid() && Running(attempt) && (flow.Next? || flow.Throw? || flow.Crash?)
      ensures state == old(state) || state == old(state).(status := status)
      ensures flow == Next ==> state == old(state).(status := status)
      ensures dir.files == old(dir.files).(state := dir.files.state)
    {
      if !LegalTransition(state.status, status) {
        return Throw(OtherError);
      }
      state := state.(status := status);
      flow := Await();
      if flow == Next {
        flow := WriteState(state);
      }
    }

    // Takes over the execution an allowance continuation brought: nothing runs and nothing is charged.
    method UseSaved(attempt: int, plan: Id, saved: Id) returns (flow: Flow, execution: Execution)
      requires Valid() && Running(attempt)
      modifies this`active, dir`files
      ensures Valid() && Fine(flow) && !flow.Again? && (flow == Next ==> Running(attempt))
    {
      var aborted: bool := *;
      active, execution := None, Execution(saved, false, false);
      flow := Await();
      if flow == Next && aborted {
        flow := StopAtBoundary(attempt, Some(plan), Some(execution));
      }
    }

    method MeasureExecute(attempt: int, violation: bool) returns (flow: Flow, outcome: PhaseOutcome)
      requires Valid() && Running(attempt) && (attempt, Phase.Execute) !in settled
      modifies this`state, this`active, this`settled, this`observedTokens, this`observationsKnown, this`charges, this`launched
      modifies dir, worker, worker.accumulator
      ensures old(dir.reached) <= dir.reached
      ensures Valid() && Running(attempt) && (flow.Next? || flow.Throw? || flow.Crash?) && SameRun(old(state), state)
      ensures settled <= old(settled) + {(attempt, Phase.Execute)}
      ensures attempt in dir.files.executeStarted
      ensures flow == Next ==>
                (outcome.TimedOut? || outcome.Finished?) && SettledLast() && (attempt, Phase.Execute) in settled
    {
      dir.files := dir.files.(executeStarted := dir.files.executeStarted + {attempt});
      flow, outcome := Measure(Phase.Execute, attempt, false, violation);
    }

    method RunExecute(attempt: int, plan: Id) returns (flow: Flow, execution: Option<Execution>)
      requires Valid() && Running(attempt) && (attempt, Phase.Execute) !in settled
      modifies this`state, this`active, this`settled, this`observedTokens, this`observationsKnown, this`charges, this`launched
      modifies dir, worker, worker.accumulator
      ensures old(dir.reached) <= dir.reached
      ensures Valid() && Fine(flow) && !flow.Again? && state.attemptsUsed == attempt
      ensures settled <= old(settled) + {(attempt, Phase.Execute)}
      ensures flow == Next ==> execution.Some? && Running(attempt) && SettledLast() && attempt in dir.files.executeStarted
      ensures flow == Next ==> (attempt, Phase.Execute) in settled
    {
      execution := None;
      var aborted: bool, produced: Id, partial: bool, toVerify: bool, violation: bool := *, *, *, *, *;
      var outcome;
      flow, outcome := MeasureExecute(attempt, violation);
      if flow != Next {
        return;
      }
      execution := if outcome.Finished? || outcome.result then Some(Execution(produced, partial, toVerify)) else None;
      if aborted {
        flow := StopAtBoundary(attempt, Some(plan), execution);
      } else if execution == None {
        flow := Conclude(Exhausted);
      }
    }

    // What execute's result leads to short of verification.
    method JudgeExecution(attempt: int, plan: Id, execution: Execution) returns (flow: Flow)
      requires Valid() && Running(attempt)
      requires state.budget.tokens == Some(0) ==> SettledLast() && attempt in dir.files.executeStarted
      modifies this`state, dir`files
      ensures Valid() && Fine(flow) && !flow.Again? && state.attemptsUsed == attempt
      ensures flow == Next ==> Running(attempt) && state == old(state)
    {
      var requested: bool, gate: bool, ranOut: bool := *, *, *;
      if requested {
        flow := StopAtBoundary(attempt, Some(plan), Some(execution));
        return;
      }
      if gate || (execution.partial && !execution.sendToVerify) {
        flow := WriteArtifacts(attempt, Some(plan), Some(execution), None);
        if flow == Next {
          flow := Conclude(if gate then BlockedWaitingHuman else if ranOut then Exhausted else Failed);
        }
        return;
      }
      if BudgetExceeded(state.budget) {
        flow := OutOfBudget(attempt, plan, Some(execution), Phase.Verify);
        return;
      }
      flow := Next;
    }

    method ExecuteStage(attempt: int, plan: Id, saved: Option<Id>) returns (flow: Flow, execution: Option<Execution>)
      requires Valid() && Running(attempt) && (attempt, Phase.Execute) !in settled
      requires saved.Some? ==> state.budget.tokens != Some(0)
      modifies this`state, this`active, this`settled, this`observedTokens, this`observationsKnown, this`charges, this`launched
      modifies dir, worker, worker.accumulator
      ensures old(dir.reached) <= dir.reached
      ensures Valid() && Fine(flow) && !flow.Again? && state.attemptsUsed == attempt
      ensures settled <= old(settled) + {(attempt, Phase.Execute)}
      ensures flow == Next ==> execution.Some? && Running(attempt)
    {
      execution := None;
      flow := Enter(attempt, Executing);
      if flow != Next {
        return;
      }
      if saved.Some? {
        var reused;
        flow, reused := UseSaved(attempt, plan, saved.value);
        execution := Some(reused);
      } else {
        flow, execution := RunExecute(attempt, plan);
      }
      if flow == Next {
        flow := JudgeExecution(attempt, plan, execution.value);
      }
    }

    // A measured failure of the verifier is settled before it is thrown on.
    method MeasureVerify(attempt: int, blind: bool) returns (flow: Flow, outcome: PhaseOutcome)
      requires Valid() && Running(attempt) && (attempt, Phase.Verify) !in settled
      modifies this`state, this`active, this`settled, this`observedTokens, this`observationsKnown, this`charges, this`launched
      modifies dir, worker, worker.accumulator
      ensures old(dir.reached) <= dir.reached
      ensures Valid() && (flow.Next? || flow.Throw? || flow.Crash?) && SameRun(old(state), state)
      ensures flow.Throw? && flow.kind.PhaseError? ==> (attempt, Phase.Verify) in settled
      ensures flow == Next ==>
                && Running(attempt) && attempt in dir.files.executionFinished && (outcome.TimedOut? || outcome.Finished?) && SettledLast()
                && (attempt, Phase.Verify) in settled
    {
      dir.files := dir.files.(executionFinished := dir.files.executionFinished + {attempt});
      flow, outcome := Measure(Phase.Verify, attempt, blind, false);
      if flow.Throw? && flow.kind.PhaseError? {
        var settlement := SettlePhase(Phase.Verify, attempt, flow.kind.elapsed, flow.kind.tokens);
        if settlement != Next {
          flow := settlement;
        }
      }
    }

    // The verify phase up to its result.
    method RunVerify(attempt: int, plan: Id, execution: Execution) returns (flow: Flow, verification: Option<Verification>)
      requires Valid() && Running(attempt) && (attempt, Phase.Verify) !in settled && state.status == Verifying
      modifies this`state, this`active, this`settled, this`observedTokens, this`observationsKnown, this`charges, this`launched
      modifies this`answers
      modifies dir, worker, worker.accumulator
      ensures old(dir.reached) <= dir.reached
      ensures Valid() && Fine(flow) && !flow.Again? && state.attemptsUsed == attempt
      ensures flow == Next ==>
                && verification.Some? && Running(attempt) && SettledLast() && attempt in dir.files.executionFinished
                && Holds(attempt, Phase.Verify, VerifyFile(verification.value)) && (attempt, Phase.Verify) in settled
                && answers == old(answers) + [verification.value]
    {
      verification := None;
      var aborted: bool, requested: bool, answer: Verification := *, *, *;
      var outcome;
      flow, outcome := MeasureVerify(attempt, !aborted);
      if flow != Next {
        return;
      }
      verification := Some(answer);
      flow := AfterVerify(attempt, plan, execution, aborted, outcome.TimedOut?, answer, requested);
    }

    // What a settled verify phase leads to short of the decision.
    method AfterVerify(
      attempt: int, plan: Id, execution: Execution, aborted: bool, timedOut: bool, answer: Verification, requested: bool)
      returns (flow: Flow)
      requires Valid() && state.status == Verifying
      modifies this`state, this`answers, dir`files
      ensures Valid() && Fine(flow) && !flow.Again? && state.attemptsUsed == old(state).attemptsUsed
      ensures flow == Next ==>
                && !aborted && !timedOut && answers == old(answers) + [answer] && state == old(state)
                && dir.files == old(dir.files).(phases := dir.files.phases)
                && Holds(attempt, Phase.Verify, VerifyFile(answer))
    {
      if aborted || timedOut {
        flow := StopAfterVerify(attempt, plan, execution, aborted);
      } else {
        flow := KeepAnswer(attempt, plan, execution, answer, requested);
      }
    }

    // The verifier's answer goes on file before anything is decided by it.
    method KeepAnswer(attempt: int, plan: Id, execution: Execution, answer: Verification, requested: bool) returns (flow: Flow)
      requires Valid() && state.status != Succeeded
      modifies this`answers, dir`files
      ensures Valid() && Fine(flow) && !flow.Again? && answers == old(answers) + [answer]
      ensures flow == Next ==>
                && dir.files == old(dir.files).(phases := dir.files.phases)
                && Holds(attempt, Phase.Verify, VerifyFile(answer))
    {
      answers := answers + [answer];
      flow := WriteArtifacts(attempt, Some(plan), Some(execution), Some(answer));
      if flow == Next && requested {
        flow := HandoffBoundary();
      }
    }

    method StopAfterVerify(attempt: int, plan: Id, execution: Execution, aborted: bool) returns (flow: Flow)
      requires Valid()
      modifies this`state, dir`files
      ensures Valid() && Fine(flow) && !flow.Next? && !flow.Again? && state.attemptsUsed == old(state).attemptsUsed
    {
      if aborted {
        flow := StopAtBoundary(attempt, Some(plan), Some(execution));
      } else {
        flow := WriteArtifacts(attempt, Some(plan), Some(execution), None);
        if flow == Next {
          flow := Conclude(Exhausted);
        }
      }
    }

    // The stop rules over one verification. An attempt is retried only as the first of its whole lineage;
    // an exhausted one is parked only when it would have been retried but for the tokens.
    method Decide(attempt: int, v: Verification, pathGate: bool) returns (flow: Flow)
      requires Valid() && Running(attempt) && SettledLast()
      requires attempt in dir.files.executionFinished && Holds(attempt, Phase.Verify, VerifyFile(v))
      requires answers != [] && answers[|answers| - 1] == v
      modifies this`state, dir`files
      ensures Valid() && Fine(flow) && !flow.Next? && state.attemptsUsed == attempt
      ensures flow.Again? ==> attempt == 1 && InheritedAttempts() <= 0
      ensures flow.Again? || flow.Return? ==>
                var gate := pathGate || v.pauseSignals * dir.contract.pauseOn != {};
                && (flow.Return? && flow.final.status == Succeeded <==> !pathGate && Accepts(v))
                && (gate ==> flow.Return? && flow.final.status == BlockedWaitingHuman)
                && (!gate && v.stopSignals * dir.contract.stopOn != {} ==> flow.Return? && flow.final.status == Cancelled)
                && (flow.Again? ==> v.safeToRetry && !BudgetExceeded(state.budget))
    {
      var gate := pathGate || v.pauseSignals * dir.contract.pauseOn != {};
      var stopped := v.stopSignals * dir.contract.stopOn != {};
      var number, max := attempt + InheritedAttempts(), dir.contract.maxAttempts + InheritedAttempts();
      var decision :=
        if gate then Ends(BlockedWaitingHuman)
        else if stopped then Ends(Cancelled)
        else EvaluateStopDecision(false, v.approved, false, number, max, BudgetExceeded(state.budget), state.recentFailures, v);
      if decision == Ends(Exhausted) && !gate && !stopped {
        var parked;
        parked, flow := ParkRetry(attempt, v);
        if flow != Next {
          return;
        }
        if parked.Some? {
          return Return(parked.value);
        }
      }
      if decision == Retryable {
        flow := Retry(attempt, v.failure);
        return;
      }
      flow := Conclude(decision.status);
    }

    // An exhausted attempt that would have been retried but for the tokens.
    method ParkRetry(attempt: int, v: Verification) returns (parked: Option<RunState>, flow: Flow)
      requires Valid() && Running(attempt) && SettledLast()
      requires attempt in dir.files.executionFinished && Holds(attempt, Phase.Verify, VerifyFile(v))
      requires v.pauseSignals * dir.contract.pauseOn == {} && v.stopSignals * dir.contract.stopOn == {}
      modifies dir`files
      ensures Valid() && Running(attempt) && (flow.Next? || flow.Throw? || flow.Crash?)
      ensures flow == Next && parked.Some? ==>
                && Returnable(parked.value) && parked.value.budget == state.budget
                && parked.value.status == BlockedWaitingHuman && !v.approved
    {
      parked, flow := None, Next;
      var number, max := attempt + InheritedAttempts(), dir.contract.maxAttempts + InheritedAttempts();
      if EvaluateStopDecision(
           false, v.approved, false, number, max, state.budget.timeRemaining == 0, state.recentFailures, v) == Retryable {
        var waiting := WaitingState(Phase.Plan, Some(v.failure));
        assert waiting.recentFailures[..|waiting.recentFailures| - 1] == state.recentFailures;
        parked, flow := ParkAllowance(Phase.Plan, Some(v.failure));
      }
    }

    method Retry(attempt: int, failure: Failure) returns (flow: Flow)
      requires Valid() && Running(attempt)
      modifies this`state, dir`files
      ensures Valid() && Fine(flow) && !flow.Next? && state.attemptsUsed == attempt
      ensures flow.Again? ==> state == old(state).(status := Planning, recentFailures := old(state).recentFailures + [failure])
      ensures flow.Return? ==> flow.final.status == Failed || flow.final.status == Cancelled
    {
      state := state.(recentFailures := state.recentFailures + [failure]);
      flow := Enter(attempt, Planning);
      if flow == Next {
        flow := Await();
      }
      if flow != Next {
        return;
      }
      var cleanupFailed: bool, leaseLost: bool := *, *;
      if cleanupFailed {
        flow := Conclude(Failed);
      } else if leaseLost {
        flow := Conclude(Cancelled);
      } else {
        flow := Again;
      }
    }

    method VerifyStage(attempt: int, plan: Id, execution: Execution) returns (flow: Flow)
      requires Valid() && Running(attempt) && (attempt, Phase.Verify) !in settled
      modifies this`state, this`active, this`settled, this`observedTokens, this`observationsKnown, this`charges, this`launched
      modifies this`answers
      modifies dir, worker, worker.accumulator
      ensures old(dir.reached) <= dir.reached
      ensures Valid() && Fine(flow) && !flow.Next? && state.attemptsUsed == attempt
      ensures flow.Again? ==> attempt == 1 && InheritedAttempts() <= 0
    {
      flow := Enter(attempt, Verifying);
      if flow != Next {
        return;
      }
      var verification;
      flow, verification := RunVerify(attempt, plan, execution);
      if flow == Next {
        var pathGate: bool := *;
        flow := Decide(attempt, verification.value, pathGate);
      }
    }

    // The catch of one attempt. An error out of the catch itself ends the invocation as a crash does.
    method HandleThrow(attempt: int, kind: ThrowKind) returns (flow: Flow)
      requires Valid() && attempt == state.attemptsUsed && attempt >= 1
      modifies this`state, this`active, this`settled, this`observedTokens, this`observationsKnown, this`charges
      modifies dir`files, worker, worker.accumulator
      ensures Valid() && Fine(flow) && (flow.Return? || flow.Crash?) && state.attemptsUsed == attempt
    {
      if kind == HeartbeatStopped || kind == LockStuck {
        flow := HandoffBoundary();
      } else if kind == LeaseStop {
        if Terminal(state.status) {
          flow := Return(state);
        } else {
          flow := Conclude(Cancelled);
        }
      } else {
        flow := Next;
        if kind.PhaseError? {
          flow := SettleFailure(attempt, kind.elapsed, kind.tokens);
        }
        if flow == Next {
          flow := if state.status == Failed then Return(state) else Next;
        }
        if flow == Next {
          flow := Conclude(Failed);
        }
      }
      if flow.Throw? {
        flow := Crash;
      }
    }

    // A failed phase is charged; a handoff or a human gate may claim it before it counts as a failure.
    method SettleFailure(attempt: int, elapsed: nat, tokens: Option<nat>) returns (flow: Flow)
      requires Valid() && attempt == state.attemptsUsed && attempt >= 1
      modifies this`state, this`active, this`settled, this`observedTokens, this`observationsKnown, this`charges
      modifies dir`files, worker, worker.accumulator
      ensures Valid() && Fine(flow) && !flow.Again? && state.attemptsUsed == attempt
    {
      flow := Next;
      if active.Some? {
        flow := SettlePhase(active.value, attempt, elapsed, tokens);
      }
      var handoff: bool, gate: bool, plan: Option<Id>, execution: Option<Execution> := *, *, *, *;
      if flow == Next && handoff {
        flow := StopAtBoundary(attempt, plan, execution);
      } else if flow == Next && gate {
        flow := Conclude(BlockedWaitingHuman);
      }
    }

    // One attempt: it is counted and put on disk before anything of it reaches an agent.
    method Attempt(attempt: int) returns (flow: Flow)
      requires Valid() && attempt == state.attemptsUsed + 1 && attempt <= dir.contract.maxAttempts
      requires !BudgetExceeded(state.budget)
      modifies Frame()
      ensures old(dir.reached) <= dir.reached
      ensures Valid() && Fine(flow) && !flow.Next? && state.attemptsUsed == attempt
      ensures flow.Again? ==> attempt == 1 && InheritedAttempts() <= 0
    {
      state := Consume(state, dir.contract.maxAttempts, attempt);
      flow := WriteState(state);
      if flow != Next {
        return;
      }
      var carried := if attempt == 1 then continuation else None;
      var plan := if carried == None then None else carried.value.plan;
      var saved := if carried.Some? && carried.value.nextPhase == Phase.Verify then carried.value.execution else None;
      flow := SetupStage(attempt, plan, if saved == None then None else Some(Execution(saved.value, false, false)));
      if flow == Next {
        flow := AgentPhases(attempt, plan, saved);
      }
    }

    method AgentPhases(attempt: int, carriedPlan: Option<Id>, saved: Option<Id>) returns (flow: Flow)
      requires Valid() && Running(attempt) && forall phase :: (attempt, phase) !in settled
      requires saved.Some? ==> carriedPlan.Some? && state.budget.tokens != Some(0)
      modifies Frame()
      ensures Valid() && Fine(flow) && !flow.Next? && state.attemptsUsed == attempt
      ensures old(dir.reached) <= dir.reached
      ensures flow.Again? ==> attempt == 1 && InheritedAttempts() <= 0
    {
      var plan := carriedPlan;
      if plan == None {
        flow, plan := PlanStage(attempt);
        if flow != Next {
          return;
        }
      }
      var execution;
      flow, execution := ExecuteStage(attempt, plan.value, saved);
      if flow == Next {
        flow := VerifyStage(attempt, plan.value, execution.value);
      }
    }

    // Creating the workspace is tried at most twice; a lease refusal is neither retried nor escalated.
    method CreateWorkspace() returns (flow: Flow)
      requires Valid()
      modifies this`state, dir`files
      ensures Valid() && Fine(flow) && !flow.Again? && (flow == Next ==> state == old(state))
      ensures state.attemptsUsed == old(state).attemptsUsed
    {
      var retried := false;
      while true
        invariant Valid() && state == old(state)
        decreases !retried
      {
        flow := Await();
        if flow == Next || flow == Crash {
          return;
        }
        if flow == Throw(LeaseStop) {
          flow := Conclude(Cancelled);
          return;
        }
        if retried {
          flow := Conclude(BlockedWaitingHuman);
          return;
        }
        retried := true;
      }
    }

    // The checks at the phase boundary. A turn that gets past them has an attempt and a budget left.
    method PassBoundary() returns (flow: Flow)
      requires Valid()
      modifies this`state, dir`files
      ensures Valid() && Fine(flow) && (flow.Return? || flow.Crash? || flow.Next?)
      ensures state.attemptsUsed == old(state).attemptsUsed
      ensures flow == Next ==> state == old(state) && !OutOfAttempts()
    {
      flow := WriteState(state);
      if flow == Next {
        flow := Await();
      }
      if flow != Next {
        return Crash;
      }
      var leaseLost: bool, stopRequested: bool := *, *;
      if leaseLost || (!stopRequested && OutOfAttempts()) {
        flow := PersistTerminal(if leaseLost then Cancelled else Exhausted);
        return if flow == Next then Return(state) else Crash;
      }
      if stopRequested {
        return Return(state);
      }
    }

    // One turn of the loop: the checks at the phase boundary, then an attempt.
    method Turn() returns (flow: Flow)
      requires Valid()
      modifies Frame()
      ensures Valid() && Fine(flow) && (flow.Return? || flow.Crash? || flow.Again?)
      ensures old(dir.reached) <= dir.reached
      ensures old(state).attemptsUsed <= state.attemptsUsed <= old(state).attemptsUsed + 1
      ensures flow.Again? ==> old(state).attemptsUsed == 0 && state.attemptsUsed == 1
    {
      flow := PassBoundary();
      if flow != Next {
        return;
      }
      flow := CreateWorkspace();
      if flow == Next {
        flow := TryAttempt(state.attemptsUsed + 1);
      }
      if flow.Throw? {
        flow := Crash;
      }
    }

    predicate OutOfAttempts()
      reads this`state
    {
      BudgetExceeded(state.budget) || state.budget.attemptsRemaining == 0 || sessions == Some(0)
    }

    method TryAttempt(attempt: int) returns (flow: Flow)
      requires Valid() && attempt == state.attemptsUsed + 1 && attempt <= dir.contract.maxAttempts
      requires !BudgetExceeded(state.budget)
      modifies Frame()
      ensures Valid() && Fine(flow) && (flow.Return? || flow.Crash? || flow.Again?) && state.attemptsUsed == attempt
      ensures old(dir.reached) <= dir.reached
      ensures flow.Again? ==> attempt == 1
    {
      flow := Attempt(attempt);
      if flow.Throw? {
        flow := HandleThrow(attempt, flow.kind);
      }
    }

    // The loop. It halts: a second attempt is only ever made after the first of the lineage. It returns
    // a state or dies; either way the directory keeps its invariant, and what is left of the budget is
    // the starting snapshot less what was charged.
    method Run() returns (final: Option<RunState>)
      requires Valid()
      modifies Frame()
      ensures Valid() && old(dir.reached) <= dir.reached
      ensures old(state).attemptsUsed <= state.attemptsUsed <= old(state).attemptsUsed + 2
      ensures final.Some? ==> Returnable(final.value)
      ensures final.Some? && final.value.status == Succeeded ==> Approved()
      ensures final.Some? ==>
                && final.value.budget.timeRemaining == Remaining(start.timeRemaining, ElapsedSum(charges))
                && final.value.budget.tokens == RemainingTokens(start.tokens, TokenSum(charges))
    {
      var flow := Turn();
      while flow.Again?
        invariant Valid() && Fine(flow) && (flow.Return? || flow.Crash? || flow.Again?)
        invariant old(dir.reached) <= dir.reached
        invariant old(state).attemptsUsed <= state.attemptsUsed <= old(state).attemptsUsed + 2
        invariant flow.Again? ==> state.attemptsUsed == 1 && old(state).attemptsUsed == 0
        decreases flow.Again?
      {
        flow := Turn();
      }
      final := if flow.Return? then Some(flow.final) else None;
    }

    // And a parked state it returns is one the worker can pack and any entitled successor can read back.
    lemma ParkedIsReadable(final: RunState, successor: Envelope)
      requires Valid() && Returnable(final) && final.waitingForAllowance.Some? && SafeAmount(successor.policy.inherited)
      ensures envelope.Some?
      ensures var e := envelope.value;
              var packet := BuildPacket(e, final, dir.files, Some(worker.ledger), |worker.ledger.events| + 1);
              && packet.Some?
              && var read := ReadContinuation(successor, e.runId, packet.value);
              && (read.Ok? <==> MayContinue(successor, e, worker.ledger))
              && (read.Ok? ==> read.value == Expected(final, dir.files))
    {
      RoundTrip(envelope.value, dir.contract, final, dir.files, worker.ledger, successor);
    }

    // The last thing the worker observed belongs to the present attempt.
    ghost predicate SettledLast()
      reads this`state, worker`ledger, worker`lastAttempt
    {
      worker.ledger.events != [] && worker.lastAttempt == state.attemptsUsed
    }
  }

  // A charge touches the budget and nothing else.
  predicate SameRun(a: RunState, b: RunState) {
    b == a.(budget := a.budget.(timeRemaining := b.budget.timeRemaining, tokens := b.budget.tokens, tokenStatus := b.budget.tokenStatus))
  }

  // A resume of whatever a crash left: never of a finished run, always from planning.
  method Resume(dir: RunDirectory, generation: int) returns (final: Option<RunState>)
    requires dir.Valid() && 1 <= generation <= MAX_SAFE
    modifies dir
    ensures dir.Valid() && old(dir.reached) <= dir.reached
    ensures Terminal(old(dir.files).state.status) ==> dir.reached == old(dir.reached) && dir.files == old(dir.files)
  {
    var state := dir.files.state;
    if !Resumable(state.status) || state.waitingForAllowance.Some? {
      return None;
    }
    var run := new LoopRun(dir, state.(status := Planning), None, None, None, 0, generation);
    final := run.Run();
  }
}
