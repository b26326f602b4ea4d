# ccloop, modelled in Dafny

ccloop runs a coding agent in a loop over a run directory that several processes, crashes and restarts share. Its
safety rests on a handful of small durable protocols. This project models those protocols, branch by branch, and
proves what each of them keeps over every run. `dafny verify dfyconfig.toml` checks all of it.

## How to read it

Where the source is a set of interleaved processes (run ownership, the accepted record) the model is a state machine:
a `World`, an `Act` per step between two awaits, `Enabled` and `Apply`, and lemmas over every legal sequence of acts.
Where the source is a function or an object that changes things step by step (the heartbeat's closure, the attempt
loop, the table update, the saved-result lifecycle, the worker's hooks, the restore, the result log) the model is a
class or a method with a loop. Crashes, clocks, agents, the file system and foreign edits are nondeterministic choices
inside those methods, so a contract that holds, holds whatever they do. Pure code is functions and lemmas.

| module | what it covers |
|---|---|
| `Ownership`, `LeaseHeartbeat`, `RunOwnership` | the owner record, one session's heartbeat, and any number of sessions, adoptions and resumes over one record |
| `LeaseLoss`, `ResumeClaims` | when a session can lose its run falsely, and which resumes of one record can commit |
| `RunStates`, `AttemptLoop`, `AllowancePark` | run states and stop rules, the attempt loop with its budgets, parking on token allowance and reading it back |
| `AgentsUpdate` | the crash-safe update of the agents table |
| `SavedResult`, `Lineage` | verifying a saved result at most once, and what a chain of interrupted recoveries inherits |
| `AcceptedRecord`, `UsageLedger`, `ModelUsage` | the accepted record and stop proof, the append-only usage ledger, the per-model breakdown |
| `CanonicalJson`, `Materialize`, `GitStatus`, `TaskResults`, `ExtraWorktrees` | canonical encoding, restore and verify of a snapshot, git-status parsing, the task-result log, settling extra worktrees |

Identifiers, hashes and timestamps are integers that matter by equality (timestamps also by order). sha256 is taken as
injective, so a digest carries the content it digests. One session has one process instance id.

## What was found

- A session can take its own epoch transfer for a loss, although nobody else ever wrote the record. `assertHeld` runs
  outside the heartbeat's queue, so it can compare a read from one side of the transfer with an expectation from the
  other (`LeaseLoss.ReadWithinWindow`, `LeaseLoss.ReadBeforeTransfer`). And the event of a committed transfer is appended
  without a guard: if that fails, the transfer is never adopted, and the next affirm makes the queue itself conclude the
  loss (`LeaseLoss.TransferEventLost`). `LeaseLoss.LostAcrossExactly` says over every run when it happens. It takes a
  record that is marked lost when the session starts (`LeaseLoss.FalseLossExactly`). No writer in the repository marks a
  record lost: the status is only compared (src/ownership/ownerController.ts:58, src/controller/runLoop.ts:1010), and
  sessions start on current records. On any other unsuperseded record there is no false loss at all, with any number of
  other sessions at work (`LeaseLoss.LossIsTrue`).
- Boundary analysis never takes over a record that is current and not superseded, whatever the evidence. Only a record
  already marked lost is taken over, and only when the worktree was observed to have changed nothing
  (`Ownership.BoundaryTransferExactly`).
- A resume claim is a compare-and-swap on the whole record, but a record can come back, and then another resume that read
  it commits too. That takes the process the record names: either it makes the claim and later affirms and releases with
  the record's own stamp, or it claims over somebody else's claim with that stamp. `ResumeClaims.SecondClaimExactly` is
  the condition, both ways and over every later schedule, with wall clocks that may step back; if stamps never run
  backward, the first claim must also be made in the very millisecond of the record (`ResumeClaims.SecondClaimForward`).
  `ResumeClaims.SameMillisecondClaims` and `ResumeClaims.RestoredRecordClaims` are runs that reach it without any clock
  stepping back, and `ResumeClaims.ClaimShutsOutForGood` is the guarantee for every other claim.
- The canonical encoding sorts keys with `localeCompare`, which calls some distinct names equal (canonically equivalent
  strings). Two such names of one object keep the order they came in. A value's text is independent of key order exactly
  if no object in it, at any depth, holds two names that tie (`CanonicalJson.OrderFreeExactly`).
- Restoring a snapshot and verifying it fails for a snapshot that lists an entry but not every directory above it, and
  for an ordinary user also when the snapshot's own modes hide a file or a non-empty directory from that user
  (`Materialize.Worktree.MaterializeAndVerify`, with two such snapshots in `Materialize.NotEverySnapshot`).

## Model

| member | source | states |
|---|---|---|
| Ownership.TakeoverExactly | src/ownership/ownerController.ts:18-158 | a takeover is allowed if and only if the verdict is "lost", and the exact conjunction of facts that takes; likewise for "superseded" and "valid" |
| Ownership.LivenessEvidenceOnlyDenies | src/ownership/ownerController.ts:134-158 | more evidence of life, a fresh lease included, never turns a denial into a grant |
| Ownership.BoundaryTransferExactly | src/controller/runLoop.ts:940-1011 | whatever the recovery evidence, a current and unsuperseded record is never taken over; a transfer happens exactly for a lost, unsuperseded record with an empty list of observed changes and no diff |
| LeaseHeartbeat.Heartbeat.RecordLock | src/controller/leaseHeartbeat.ts:174-198 | recording a lock complaint is attempted once, whether or not the append lands, and nothing else changes |
| LeaseHeartbeat.LatchConclude | src/controller/leaseHeartbeat.ts:96-103 | however often supersession is concluded, recording it is attempted once; what lands is at most what was attempted |
| LeaseHeartbeat.Heartbeat.Live | src/controller/leaseHeartbeat.ts:96-397 | over every sequence of calls and answers, with any append swallowed and any span ending without adopting what it committed: operations reach the head in the order scheduled, each once; the expectation stays this process's and leaves its epoch only by an adoption; after a stop an idle queue never begins anything; a superseded heartbeat begins no affirm and adopts nothing; recording a loss is attempted exactly once if concluded, and is on record at most once |
| RunOwnership.StepKeeps | src/controller/leaseHeartbeat.ts:58-61 | every step of anybody keeps the invariant, never lowers the epoch, never hands the record back to a session it stopped naming, and no session it does not name writes it |
| RunOwnership.EpochNeverFalls | src/ownership/ownerController.ts:160-188 | over every schedule the epoch never falls and the invariant holds |
| RunOwnership.AtMostOneHolder | src/controller/leaseHeartbeat.ts:343-397 | at no instant of any schedule can two sessions pass `assertHeld` |
| RunOwnership.LostForEver | src/controller/leaseHeartbeat.ts:343-397 | once the record has named another session, the earlier one is refused in every later state |
| RunOwnership.LoserIsHarmless | src/controller/leaseHeartbeat.ts:141-226 | whatever such a session does next, its comparisons refuse and none of its writes commits |
| RunOwnership.LeaseLostRecordedOnce | src/controller/leaseHeartbeat.ts:70-103 | in any run at all, recording `lease_lost` is attempted exactly once if supersession is concluded and never otherwise, and at most one such line is on record, since a rejected append is swallowed |
| LeaseLoss.NoFalseLoss | src/controller/leaseHeartbeat.ts:141-275 | if nobody else commits and every committed transfer gets its event appended, the queue never reaches a mismatch and never concludes supersession, for every mix of affirms and spans, self-transfers included |
| LeaseLoss.QueueRereadsOnlyBehind | src/controller/runLoop.ts:1080-1087 | if nobody else commits, the queue rereads the record after a mismatch only if the event of a committed transfer could not be appended |
| LeaseLoss.LossIsTrue | src/controller/leaseHeartbeat.ts:141-397 | on an unsuperseded record not marked lost, over every schedule of any number of sessions, adoptions and claims, a session has concluded a loss only if the record names somebody else, and `assertHeld` passes at an instant exactly for the session the record names |
| LeaseLoss.NeverLostAlone | src/controller/leaseHeartbeat.ts:343-397 | so without a foreign commit such a session is never superseded, however its reads, affirms and spans interleave |
| LeaseLoss.LostAcrossExactly | src/controller/runLoop.ts:1080-1087 | on any unsuperseded record, over every run without a foreign commit, the session concludes a loss if and only if some comparison of its own has a read from one side of its own transfer and an expectation from the other, reads still waiting when the transfer commits included, or its queue rereads the record after a mismatch |
| LeaseLoss.FalseLossExactly | src/controller/runLoop.ts:1173-1251 | such a run exists if and only if the record was marked lost when the session started |
| LeaseLoss.ReadWithinWindow | src/controller/runLoop.ts:1233-1251 | one way: read after the transfer commits, compared before it is adopted |
| LeaseLoss.ReadBeforeTransfer | src/controller/leaseHeartbeat.ts:343-382 | another: read before the transfer commits, compared after it is adopted |
| LeaseLoss.TransferEventLost | src/controller/runLoop.ts:1080-1087 | the third: the append of the transfer event is rejected, the transfer is never adopted, and the next affirm makes the queue itself conclude and signal, with no such comparison |
| ResumeClaims.AdoptionStands | src/controller/adoptCrashedRun.ts:40-64 | until another process claims or adopts, what a crash adoption published is eligible, for a resumable state with known or unlimited tokens, exactly as long as no boundary write lands whose session evaluated neither the adopted epoch nor the one before it |
| ResumeClaims.PassedTransferNeverEligible | src/controller/resumeLoop.ts:154-156 | once the epoch has moved past a transfer, that transfer is ineligible in every later state |
| ResumeClaims.ClaimShutsOutForGood | src/controller/resumeLoop.ts:348-355 | after a claim by a process the record does not name, unless the named process is a third one that can still claim, nothing that another resume expects of the same record ever commits, over every later schedule and whatever the clocks do |
| ResumeClaims.ClaimShutsOut | src/controller/resumeLoop.ts:348-355 | on schedules whose stamps never run backward, the same after every claim that is not stamped like the record |
| ResumeClaims.SecondClaimExactly | src/controller/resumeLoop.ts:348-355 | a second resume that read the same record gets to commit on some later schedule, wall clocks included that step back, if and only if the process the record names makes the first claim or is a third one that can still claim |
| ResumeClaims.SecondClaimForward | src/controller/resumeLoop.ts:348-355 | on schedules whose stamps never run backward, if and only if the first claim is also stamped like the record, which then carries no lease stamp |
| ResumeClaims.SameMillisecondClaims | src/controller/resumeLoop.ts:271-355 | a run in which an adopter and another resume both claim and both start a loop |
| ResumeClaims.RestoredRecordClaims | src/controller/resumeLoop.ts:271-355 | a run in which an adopter claims over a first claim, which puts the record back, and a second reader of it then claims too |
| RunStates.TerminalExactly | src/state/stateMachine.ts:3-19 | a status is terminal exactly when nothing legally follows it |
| RunStates.RetryableExactly | src/stop/stopController.ts:60-94 | retry is decided exactly for a safe, unrepeated, unlimited first rejection |
| RunStates.StopDecisionExactly | src/stop/stopController.ts:60-94 | the exact condition of each of the other five decisions; an approval is overruled by nothing but a cancel |
| RunStates.RemainingTwice | src/budget/tokenPolicy.ts:10-14 | charging in two steps is charging once: the floor at zero gives nothing back |
| AttemptLoop.RunDirectory.AttemptsBounded | src/controller/runLoop.ts:1782-1790 | over any sequence of invocations and crashes at most `maxAttempts` attempts reach an agent and no attempt number reaches one twice |
| AttemptLoop.LoopRun.constructor | src/controller/runLoop.ts:1600-1657 | an invocation starts with its own tally and the snapshot it was given |
| AttemptLoop.LoopRun.ChargePhase | src/controller/runLoop.ts:661-673 | one charge is added; the remainders stay the starting snapshot less all charges, floored at zero, and the settled phases are the charged ones, each once |
| AttemptLoop.LoopRun.SettlePhase | src/controller/runLoop.ts:1658-1685 | a phase is charged and reported to the worker the first time and never again |
| AttemptLoop.LoopRun.RunPhase | src/controller/runLoop.ts:702-779 | an agent is launched only with time left, and a time-out lasted at least the limit |
| AttemptLoop.LoopRun.ParkAllowance | src/controller/runLoop.ts:1691-1705 | the run parks exactly when nothing but the shared allowance is spent, and the parked state satisfies everything the successor's reader needs |
| AttemptLoop.LoopRun.OutOfBudget | src/controller/runLoop.ts:1983-1996 | out of budget after a phase, a whole result is parked for its next phase exactly when nothing but the shared allowance is spent; otherwise the run is exhausted |
| AttemptLoop.LoopRun.RunSetup | src/controller/runLoop.ts:1884-1938 | setup's measured time is charged once, as time alone |
| AttemptLoop.LoopRun.PlanStage | src/controller/runLoop.ts:1939-1998 | the loop goes on only with a plan, a settled plan phase and budget left; otherwise it parks, stops or ends |
| AttemptLoop.LoopRun.RunExecute | src/controller/runLoop.ts:1999-2110 | goes on only with a result of a settled execute phase whose start is on record |
| AttemptLoop.LoopRun.ExecuteStage | src/controller/runLoop.ts:1999-2211 | goes on only with an execution, whether made now or carried by a continuation |
| AttemptLoop.LoopRun.RunVerify | src/controller/runLoop.ts:2213-2318 | goes on only with an answer of a settled verify phase that is on file |
| AttemptLoop.LoopRun.Decide | src/controller/runLoop.ts:2322-2440 | a run is concluded a success exactly if the verifier approved and neither gate nor stop signal spoke; gates and stop signals win in that order; a retry is only ever of the lineage's first attempt |
| AttemptLoop.LoopRun.Retry | src/controller/runLoop.ts:2361-2412 | the rejection is kept and the next attempt starts with the same budget, or the run ends |
| AttemptLoop.LoopRun.HandleThrow | src/controller/runLoop.ts:2441-2606 | whatever is thrown, the attempt ends in a returned state or the death of the invocation with all invariants kept |
| AttemptLoop.LoopRun.CreateWorkspace | src/controller/runLoop.ts:1796-1852 | at most two tries; a lease refusal is not retried |
| AttemptLoop.LoopRun.PassBoundary | src/controller/runLoop.ts:1742-1789 | a turn gets past the boundary only with budget, attempts and sessions left and the state unchanged |
| AttemptLoop.LoopRun.Turn | src/controller/runLoop.ts:1742-1890 | one turn uses at most one attempt, and only the first attempt of a run is followed by another turn |
| AttemptLoop.LoopRun.Run | src/controller/runLoop.ts:1742-2607 | the loop halts; the remainders it returns are the snapshot less the charges; a success was approved; a parked state is readable |
| AttemptLoop.LoopRun.ParkedIsReadable | src/control/materialize.ts:204-284 | whatever the loop parks can be packed and is read back, exactly, by precisely the entitled successors |
| AttemptLoop.Resume | src/controller/resumeLoop.ts:402-418 | a resume keeps the directory's invariant and never touches a finished run |
| AllowancePark.SameDecision | src/control/materialize.ts:255-268 | deciding retryable again from the saved counters gives the decision the loop made over its own |
| AllowancePark.RoundTrip | src/control/materialize.ts:204-284 | the packet of a parked run is built, is accepted if and only if the successor may continue, and gives back exactly the next phase, plan, execution, failures and evidence |
| AgentsUpdate.AppliedExactly | src/agents/updates.ts:206-222 | each accepted change rewrites its own row, from the original table alone |
| AgentsUpdate.AppliedElsewhere | src/agents/updates.ts:206-222 | and no other row moves |
| AgentsUpdate.ApplyOne | src/agents/updates.ts:149-160 | with unchanged probes a change is applied exactly if it fits the table |
| AgentsUpdate.BuildAfter | src/agents/updates.ts:206-223 | with unchanged probes the new table is built exactly if every accepted id names a fitting change and no two meet in a row |
| AgentsUpdate.Recheck | src/agents/updates.ts:187-194 | with unchanged probes an interrupted replacement goes on exactly if every accepted change is still available |
| AgentsUpdate.UpdateStore.CompareAndRename | src/agents/updateReceipt.ts:169-175 | the table goes from the expected bytes to the new ones, or is left as it is |
| AgentsUpdate.UpdateStore.WriteTemporary | src/agents/updateReceipt.ts:161-168 | the temporary holds all of the new bytes unless the process died |
| AgentsUpdate.UpdateStore.ReplaceTable | src/agents/updateReceipt.ts:156-181 | at most one replacement, of exactly the expected bytes; success means the table has held the new ones |
| AgentsUpdate.UpdateStore.WriteReceipt | src/agents/updateReceipt.ts:46-81 | only the intent's own receipt is ever published, and only after the table has held its after-bytes |
| AgentsUpdate.UpdateStore.Recover | src/agents/updates.ts:176-200 | undisturbed, an interrupted update completes exactly if the request is the intent's and the table stands at its before- or after-bytes |
| AgentsUpdate.UpdateStore.PublishIntent | src/agents/updates.ts:225-228 | the one durable intent says from what to what |
| AgentsUpdate.UpdateStore.Settle | src/agents/updates.ts:232-236 | replace, then receipt; undisturbed, exactly if the table still is the expected one |
| AgentsUpdate.UpdateStore.Start | src/agents/updates.ts:202-237 | undisturbed, a first call completes exactly if preview, table and accepted changes fit together |
| AgentsUpdate.UpdateStore.Apply | src/agents/updates.ts:162-239 | from any durable state: at most one replacement, the announced one; a published receipt is answered whatever has become of the table, and nothing changes; undisturbed, a receipt comes out exactly when it can |
| AgentsUpdate.UpdateStore.ReplacementSays | src/agents/updates.ts:206-237 | every replacement there ever was turned one table into the same table with its request's accepted changes made, row by row |
| ModelUsage.MergeKeeps | src/control/worker.ts:62-71 | merging an entry adds its tokens to the sum and to its own model only |
| ModelUsage.SortKeeps | src/control/worker.ts:72-76 | sorting loses nothing, repeats nothing and is strictly ascending |
| ModelUsage.Accumulator.AddEntries | src/control/worker.ts:62-71 | after a phase's entries the map holds every model's total |
| ModelUsage.Accumulator.Settle | src/control/worker.ts:48-78 | an answer is given exactly while every phase has been explained and something was reported; it is sorted, sums to the run's count and holds every model's total; after one unexplained phase never again |
| UsageLedger.AppendKeepsWellFormed | src/control/usage.ts:179-227 | an append keeps numbers dense and one event per observation id, and answers that id's event |
| UsageLedger.HistoryStands | src/control/usage.ts:179-227 | no sequence of appends changes an event or an observation already there |
| UsageLedger.AppendTwice | src/control/usage.ts:186-197 | whatever came in between, the same observation again answers its first event and writes nothing; a changed one conflicts |
| UsageLedger.Replay | src/control/savedResultRecovery.ts:240-248 | the reader accepts exactly identified, dense ledgers whose known totals never fall, and returns the last known totals |
| UsageLedger.AppendKeepsWorkerInv | src/control/worker.ts:279-318 | every hook's observation keeps the ledger acceptable to both readers |
| UsageLedger.ParkedLedgerParses | src/control/usage.ts:241-254 | the ledger at a parked boundary parses exactly if something was observed and nothing of it is unknown, as the running total |
| UsageLedger.Worker.OnRecoveryAttemptEntered | src/control/worker.ts:279-283 | entering a saved-result attempt puts an empty observation of it on record |
| UsageLedger.Worker.OnSetupEnded | src/control/worker.ts:284-293 | setup puts its time on record with the running count, or none once unknown |
| UsageLedger.Worker.CountPhase | src/control/worker.ts:296-303 | the running count grows by the phase's tokens, and any breakdown adds up to it |
| UsageLedger.Worker.OnPhaseSettled | src/control/worker.ts:294-318 | each settled phase is on record once with its time and the running count; the ledger stays acceptable to both readers |
| UsageLedger.Worker.OnRunSettled | src/control/worker.ts:319-368 | a park captures the running total exactly if all is measured, and ends there if it cannot; otherwise the closing event takes the number the packet was built with |
| SavedResult.SucceedsExactly | src/controller/verifySavedResult.ts:143-181 | recovery answers succeeded exactly for a completion that hash, entry marker and lifecycle agree on, that is an approved success, and whose candidate and delivery stand |
| SavedResult.EndedStands | src/controller/verifySavedResult.ts:157-161 | a persisted non-success terminal state is answered as it is |
| SavedResult.InterruptedExactly | src/controller/verifySavedResult.ts:164-179 | without a usable completion: left for a person exactly if the entry survives and candidate and inputs are intact and not rejected |
| SavedResult.SavedRun.StartedAtMostOnce | src/controller/runLoop.ts:290-348 | over every start, crash and settlement each required check and the verifier were started at most once; a success was started from every check, and from the agent exactly if the contract has an agent verifier |
| SavedResult.SavedRun.Prepare | src/controller/verifySavedResult.ts:55-60 | preparation is durable before anything else and starts nothing |
| SavedResult.SavedRun.Enter | src/controller/verifySavedResult.ts:67-80 | the verification goes on only with a genuine, durable entry |
| SavedResult.SavedRun.RunChecks | src/controller/runLoop.ts:290-348 | checks in order, then the agent if there is one and only over an unmodified candidate; an approval means everything planned was started |
| SavedResult.SavedRun.Complete | src/controller/verifySavedResult.ts:135-141 | completion, hash and state are replaced in this order, and no crash in between leaves a state that was not reached |
| SavedResult.SavedRun.Start | src/controller/runLoop.ts:1613-1631 | with any trace of an entry a start launches nothing |
| SavedResult.SavedRun.RecoverInto | src/controller/runLoop.ts:1622-1626 | recovery writes its answer or nothing |
| SavedResult.SavedRun.EntrySurvives | src/controller/verifySavedResult.ts:143-181 | recovery never forgets or invents an entry, nor answers a success before everything planned was started |
| SavedResult.SavedRun.Settle | src/control/settleSavedResult.ts:48-91 | settlement launches nothing, never upgrades an ended state, and makes a success only of an agreed completion under a standing authority |
| SavedResult.CheckWork | src/controller/verifySavedResult.ts:225-236 | one work observation fits exactly if measured, in place and not below the one before |
| SavedResult.ScanWork | src/controller/verifySavedResult.ts:217-238 | the scan accepts exactly the ledgers whose work observations all fit, and returns the last total |
| SavedResult.ReadBudget | src/controller/verifySavedResult.ts:217-242 | the rest of the grant is stated exactly when the whole ledger accounts for it, and is unknown otherwise |
| Lineage.CheckCharges | src/control/savedResultRecovery.ts:257-270 | both buckets and all four dimensions satisfy the settlement's rule |
| Lineage.ValidateAccounting | src/control/savedResultRecovery.ts:232-271 | accounting is accepted exactly when report, stop proof, ledger and, for an unmeasured run, settlement and receipt agree |
| Lineage.SettledCoversMeasured | src/control/savedResultRecovery.ts:249-270 | what is booked is never less than measured, equals it when all was measured, and is the whole grant or the measured amount, whichever is more, under a person's settlement |
| Lineage.InheritedExactly | src/control/savedResultRecovery.ts:449-482 | the recursion accepts exactly the sound chains of at most a hundred links and answers their total |
| Lineage.EndlessRefused | src/control/savedResultRecovery.ts:450 | predecessors that never end are refused |
| Lineage.InheritanceConserved | src/control/savedResultRecovery.ts:385-399 | on every accepted chain the inherited usage is the source's inheritance plus its settled work plus every predecessor's, within safe integers, and so for every predecessor's own funding |
| Lineage.ChainWithinAuthored | src/control/savedResultRecovery.ts:492-509 | on every accepted chain a cumulative link's grant and everything used before it stay within what was authored, in every finite dimension; and a link that keeps within its grant keeps the total there |
| Lineage.TotalIsSum | src/control/savedResultRecovery.ts:489-491 | component by component, the total is the base plus the sum over the links |
| AcceptedRecord.StepKeepsRecord | src/control/store.ts:113-150 | identity stands, the worker is set once, the launch moves intended to claimed to sealed or intended to unknown |
| AcceptedRecord.StepKeepsProofs | src/control/stopProof.ts:136-167 | once sealed, nothing is registered, started or counted again, and every proof stays true |
| AcceptedRecord.RunKeeps | src/control/store.ts:113-150 | the same over any run of any number of accepts, workers, launchers, settlers and provers, with deaths at any step |
| AcceptedRecord.AtMostOneClaim | src/control/store.ts:113-128 | at most one worker ever passes the claim |
| AcceptedRecord.FateDecided | src/control/workerLauncher.ts:66-79 | once the record has left "intended" no further claim passes; a launch marked unknown stays so |
| AcceptedRecord.ProofStands | src/control/stopProof.ts:136-167 | after a stop proof nothing is ever started, nothing registered is alive, and a counted phase has a registered process |
| AcceptedRecord.StoreIsWorld | src/control/store.ts:85-150 | a locked read, check and write of the store is a run of the state machine exactly when the store's method writes, with the same result |
| AcceptedRecord.AcceptedStore.ClaimAcceptedWorker | src/control/store.ts:113-128 | a claim passes exactly for an intended record of this execution, and then sets launch and worker alone |
| AcceptedRecord.AcceptedStore.SealAcceptedWorker | src/control/store.ts:130-142 | only the claimed worker's own nonce seals |
| AcceptedRecord.AcceptedStore.MarkAcceptedUnknown | src/control/store.ts:144-150 | only an intended record becomes unknown; afterwards this execution is not waiting to be claimed |
| AcceptedRecord.AcceptedStore.ProbeAll | src/control/stopProof.ts:126-134 | quiet exactly if none of the groups lives |
| AcceptedRecord.AcceptedStore.ProveStopped | src/control/stopProof.ts:136-167 | a proof is given exactly of a sealed record with the lease released and all groups quiet in both rounds, and some group registered if a phase completed |
| CanonicalJson.SameGivesCanon | src/control/protocol.ts:374-384 | equal up to key order gives one canonical value, for a value without ties |
| CanonicalJson.CanonGivesSame | src/control/protocol.ts:374-384 | and one canonical value comes only from such values |
| CanonicalJson.PrintUnique | src/control/protocol.ts:386-390 | two values printed to the same text, whatever follows it, are the same value |
| CanonicalJson.CanonicalForm | src/control/protocol.ts:374-394 | a value none of whose objects holds two names that tie has the text of another if and only if the two are equal up to the order of object keys at every depth |
| CanonicalJson.TextDetermines | src/control/protocol.ts:386-394 | whatever the collation, equal texts mean values equal up to key order |
| CanonicalJson.OrderFreeExactly | src/control/protocol.ts:374-394 | every reordering of a value gets its text if and only if no object in it, at any depth, holds two names that the collation does not tell apart |
| Materialize.Worktree.VisitChild | src/control/materialize.ts:155-156 | one entry passes exactly if it and everything beneath it is listed as it is and can be read |
| Materialize.Worktree.Walk | src/control/materialize.ts:151-157 | the same for a whole directory, and what is struck off the expected paths is what lies beneath |
| Materialize.Worktree.VerifyMaterialized | src/control/materialize.ts:151-157 | a tree is accepted exactly when it equals the snapshot in paths, kinds, modes, contents and targets and this user can read it |
| Materialize.Worktree.MakeDirectories | src/control/materialize.ts:137-138 | the listed directories are made private, shallowest first, exactly if the parent of each is listed |
| Materialize.Worktree.RestoreTree | src/control/materialize.ts:135-145 | the restore gets through exactly if the parent of every listed directory is listed, and then every entry stands with its own mode, whatever those modes are |
| Materialize.Worktree.RestoredExactly | src/control/materialize.ts:135-145 | what was restored is the snapshot exactly when every directory above an entry is listed |
| Materialize.Worktree.MaterializeAndVerify | src/control/materialize.ts:159-173 | restore then verify succeeds exactly when all ancestors are listed and the modes hide nothing from this user |
| Materialize.NotEverySnapshot | src/control/materialize.ts:19-33 | two snapshots the reader lets through: one that nobody can restore and verify, one that only the superuser can |
| GitStatus.ParseChangedPaths | src/controller/runLoop.ts:781-805 | the index loop computes the walk over the NUL-separated pieces, on any text |
| GitStatus.PrintedThenParsed | src/controller/runLoop.ts:781-805 | for every list of well-formed records: exactly the distinct destination paths in first-occurrence order |
| GitStatus.CaptureChangedPaths | src/control/taskResults.ts:209-224 | the second copy of the loop, from the reported paths on, with deletions |
| GitStatus.WalksAgree | src/control/taskResults.ts:209-224 | on what git prints both walks visit the same paths in the same order, and exactly the deleted paths are marked |
| TaskResults.ResultLog.Record | src/control/taskResults.ts:140-188 | one manifest per attempt and kind; a verification manifest only over its attempt's execution manifest, with its outputs; revisions dense; nothing published unless all could be written |
| TaskResults.ResultLog.Collect | src/control/taskResults.ts:90-115 | a cursor within the log is answered with the next page, any other refused |
| TaskResults.PollIsNextStretch | src/control/taskResults.ts:105-113 | a page is the stretch right after the cursor and is empty only at the end |
| TaskResults.ReaderSeesEachOnce | src/control/taskResults.ts:90-115 | whatever is appended between polls, a reader has received exactly the log up to its cursor, once and in order |
| TaskResults.ReaderCatchesUp | src/control/taskResults.ts:90-115 | and it reaches the end of a log that stands still |
| ExtraWorktrees.ExtraAttempt.Publish | src/controller/runLoop.ts:485-492 | an extra is published at most once; a success is recorded; only a failure can lose its event |
| ExtraWorktrees.ExtraAttempt.Remove | src/controller/runLoop.ts:493-502 | a removed extra leaves the list, and no other |
| ExtraWorktrees.ExtraAttempt.Settle | src/controller/runLoop.ts:475-507 | removed and still-listed extras are always the original set; publishing is tried before removal and succeeds once; a pass that gets through has tried every extra, and a throwing one has removed them all, also if the last directory clean-up throws; commits.json holds every commit after such a pass and after one that a removal stopped |

## Left out

- The owner record's store: each compare-and-swap either commits and returns or fails with no effect. The lock files, staging and recovery that make it so, and the three renames of a transfer, are one step here.
- The unconditional first write of the owner record by a new run, and the lease gate, liveness and lease-freshness probes, which are arbitrary verdicts.
- The window between a lease check and the side effect that follows it: claims are about the instant of the check.
- Spawning and registering a process is one step, and operations that an abort leaves running in the background are not followed.
- A reconciliation record that is there but cannot be read, and a boundary write given up for a lock: RunOwnership has the record absent, readable or not rewritten.
- Signals, `ps`, git commands, permissions, inodes, symbolic-link checks and `fsync`: a durable write lands whole or not at all, and a hash-checked read is exact.
- Schema shapes, event and reason texts, log streaming, argument parsing and rendering.
- The run-state writer's refusal once another session owns the run: in AttemptLoop one session lives at a time, and its writes land, fail or die.
- The saved-result branch of the attempt loop is in SavedResult, not in AttemptLoop.
- The evidence a required check leaves behind, and the bound on a saved result's runtime.
- `requestHandoff`'s latch, `accept`'s status report and the launcher's polling reads.
- Loading a bundle, restoring the index and the git checks around restoring and verifying a tree; the root's own `.git` is outside the tree.
- The agents catalogue's probes are verdicts, "unchanged" or not; the table is a map, so the order of its keys in the file is not modelled; the kernel lock leaves one live updater at a time.
- A parked run has no handoff event, so the removal of an interrupted phase's file from a packet is not modelled.
- ModelUsage.Accumulator.Settle: counts are unbounded there; the safe-integer checks around it are in UsageLedger.
- CanonicalJson.CanonicalForm: the collation is any assignment of ranks to names; values with no JSON text (undefined, NaN, lone surrogates) are left out; array-index keys come first in numeric order, as the language keeps them.
- TaskResults.ResultLog.Record: the outputs' bytes and their reading limits are left out.
- SavedResult.SavedRun.StartedAtMostOnce: completion, hash, marker and lifecycle files may be lost or torn, but not forged.
- Lock time-outs appear only as `Busy`.
