/** Who owns a run: the owner record, the epoch transfer, and the evidence-based ownership decision.
    Timestamps are milliseconds, identifiers matter only by equality, and the text of a reason is left out. */
module Ownership {
  import opened Basics

  datatype OwnerStatus = Current | Lost | Unknown

  datatype OwnerRecord = OwnerRecord(
    runId: Id,
    logicalSessionId: Id,
    epoch: int,
    processId: Id,
    lastAffirmedAt: int,
    status: OwnerStatus,
    supersededBy: Option<int>,
    leaseAffirmedAt: Option<int>)
  {
    // The state every transfer and every claim leaves behind.
    predicate Settled() {
      status == Current && supersededBy == None
    }
  }

  datatype TransferRecord = TransferRecord(
    priorEpoch: int, newEpoch: int, priorProcess: Id, newProcess: Id, at: int, eligible: bool)

  datatype Verdict = OwnerValid | OwnerSuperseded | OwnerLost | OwnerUndecidable

  datatype Boundary = AtPlanning | AtExecute | AtVerify | AtTerminal | AtUnknown

  datatype BoundaryStatus = Healthy | WeaklyProgressing | NoProgress | StaleCandidate

  datatype Freshness = Fresh | NotFresh | FreshUnknown

  datatype EvaluationInput = EvaluationInput(
    record: OwnerRecord,
    stillSupported: bool,
    boundaryStatus: BoundaryStatus,
    processTrusted: bool,
    continuityEvidence: seq<Evidence>,
    knownSuperseding: Option<int>,
    lastTrusted: Boundary,
    leaseFresh: Freshness)

  datatype Evaluation = Evaluation(verdict: Verdict, takeoverAllowed: bool, lastTrusted: Boundary)

  // The strings the boundary analysis writes down, by what they report.
  datatype Evidence =
    | ChangedPaths(paths: seq<string>)
    | WorktreeDiffers
    | RecoveryCaptured
    | ObservationFailed
    | NothingObserved

  function EvaluateWithoutLease(input: EvaluationInput): (e: Evaluation) {
    var undecidable := Evaluation(OwnerUndecidable, false, input.lastTrusted);
    var lost := Evaluation(OwnerLost, true, input.lastTrusted);
    var continuity := input.processTrusted || |input.continuityEvidence| > 0;
    if input.record.supersededBy != None then
      if input.knownSuperseding != None && input.knownSuperseding != input.record.supersededBy then undecidable
      else Evaluation(OwnerSuperseded, false, input.lastTrusted)
    else if input.knownSuperseding != None then undecidable
    else match input.record.status
      case Unknown => undecidable
      case Lost =>
        if input.stillSupported then undecidable
        else if continuity then undecidable
        else if input.lastTrusted == AtUnknown then undecidable
        else lost
      case Current =>
        if continuity then
          if !input.stillSupported then undecidable
          else Evaluation(OwnerValid, false, input.lastTrusted)
        else if input.boundaryStatus != StaleCandidate then undecidable
        else if input.stillSupported then undecidable
        else if input.lastTrusted == AtUnknown then undecidable
        else lost
  }

  // A fresh lease only ever denies.
  function EvaluateOwnership(input: EvaluationInput): (e: Evaluation) {
    var evaluation := EvaluateWithoutLease(input);
    if input.leaseFresh != Fresh then evaluation
    else if evaluation.verdict != OwnerLost && !evaluation.takeoverAllowed then evaluation
    else evaluation.(verdict := OwnerUndecidable, takeoverAllowed := false)
  }

  // The whole grant side of the decision in one line: a takeover is allowed exactly when the
  // verdict is "lost", and that takes every one of these facts at once.
  lemma TakeoverExactly(input: EvaluationInput)
    ensures EvaluateOwnership(input).takeoverAllowed <==> EvaluateOwnership(input).verdict == OwnerLost
    ensures EvaluateOwnership(input).takeoverAllowed <==>
            && input.record.supersededBy == None
            && input.knownSuperseding == None
            && input.record.status != Unknown
            && !input.stillSupported
            && !input.processTrusted
            && input.continuityEvidence == []
            && input.lastTrusted != AtUnknown
            && (input.record.status == Lost || input.boundaryStatus == StaleCandidate)
            && input.leaseFresh != Fresh
    ensures EvaluateOwnership(input).verdict == OwnerSuperseded <==>
            && input.record.supersededBy != None
            && (input.knownSuperseding == None || input.knownSuperseding == input.record.supersededBy)
    ensures EvaluateOwnership(input).verdict == OwnerValid <==>
            && input.record.Settled()
            && input.knownSuperseding == None
            && (input.processTrusted || input.continuityEvidence != [])
            && input.stillSupported
    ensures EvaluateOwnership(input).lastTrusted == input.lastTrusted
  {
  }

  // More evidence of life never turns a denial into a grant.
  lemma LivenessEvidenceOnlyDenies(input: EvaluationInput, more: EvaluationInput)
    requires more.record == input.record && more.lastTrusted == input.lastTrusted
    requires more.boundaryStatus == input.boundaryStatus && more.knownSuperseding == input.knownSuperseding
    requires input.stillSupported ==> more.stillSupported
    requires input.processTrusted ==> more.processTrusted
    requires |input.continuityEvidence| <= |more.continuityEvidence|
    requires input.leaseFresh == Fresh ==> more.leaseFresh == Fresh
    requires EvaluateOwnership(more).takeoverAllowed
    ensures EvaluateOwnership(input).takeoverAllowed
  {
    TakeoverExactly(input);
    TakeoverExactly(more);
  }

  // ---- what an interrupted execute phase leaves for the boundary analysis ----

  datatype Diff = Differs | Same | DiffUnknown

  datatype ExecutionRecovery = ExecutionRecovery(worktreeDiff: Diff, changedPaths: Option<seq<string>>)

  datatype BoundaryEvidence = BoundaryEvidence(
    suspicion: seq<Evidence>,
    conflicting: seq<Evidence>,
    processTrusted: bool,
    continuity: seq<Evidence>,
    lastTrusted: Boundary,
    observationComplete: bool)

  function BuildBoundaryEvidence(recovery: Option<ExecutionRecovery>): BoundaryEvidence {
    match recovery
    case None => BoundaryEvidence([], [], false, [], AtExecute, false)
    case Some(r) =>
      if r.changedPaths.Some? && |r.changedPaths.value| > 0 then
        var seen := ChangedPaths(r.changedPaths.value);
        BoundaryEvidence([seen], [seen, RecoveryCaptured], false, [seen], AtExecute, true)
      else if r.worktreeDiff == Differs then
        BoundaryEvidence([WorktreeDiffers], [WorktreeDiffers, RecoveryCaptured], false, [WorktreeDiffers], AtExecute, true)
      else if r.changedPaths == None then
        BoundaryEvidence([ObservationFailed], [ObservationFailed], false, [], AtUnknown, false)
      else
        BoundaryEvidence([NothingObserved], [], false, [], AtExecute, true)
  }

  function EvaluateRunBoundary(strongProgress: bool, weakProgress: bool, suspicion: seq<Evidence>): BoundaryStatus {
    if strongProgress then Healthy
    else if |suspicion| > 0 then StaleCandidate
    else if weakProgress then WeaklyProgressing
    else NoProgress
  }

  // The evaluation a session makes of the record it has just read at a boundary.
  function EvaluateAtBoundary(record: OwnerRecord, recovery: Option<ExecutionRecovery>): Evaluation {
    var evidence := BuildBoundaryEvidence(recovery);
    var supported := record.Settled();
    EvaluateOwnership(EvaluationInput(
      record,
      supported,
      EvaluateRunBoundary(false, |evidence.conflicting| > 0, evidence.suspicion),
      evidence.processTrusted,
      if supported && evidence.observationComplete then [] else evidence.continuity,
      None,
      evidence.lastTrusted,
      FreshUnknown))
  }

  // Whether the boundary branch goes on to transfer the epoch to this process.
  predicate PermitsTransfer(record: OwnerRecord, recovery: Option<ExecutionRecovery>) {
    var evidence := BuildBoundaryEvidence(recovery);
    var evaluation := EvaluateAtBoundary(record, recovery);
    && EvaluateRunBoundary(false, |evidence.conflicting| > 0, evidence.suspicion) == StaleCandidate
    && evaluation.verdict == OwnerLost
    && evaluation.takeoverAllowed
  }

  // Whatever the recovery evidence, a record that is current and not superseded is never taken
  // over, and the one record that is taken over is marked lost and was observed to have changed nothing.
  lemma BoundaryTransferExactly(record: OwnerRecord, recovery: Option<ExecutionRecovery>)
    ensures record.Settled() ==> !EvaluateAtBoundary(record, recovery).takeoverAllowed
    ensures PermitsTransfer(record, recovery) <==>
            && record.status == Lost
            && record.supersededBy == None
            && recovery.Some?
            && recovery.value.worktreeDiff != Differs
            && recovery.value.changedPaths == Some([])
  {
  }

  function ApplyEpochTransfer(record: OwnerRecord, process: Id, at: int): (OwnerRecord, TransferRecord) {
    ( record.(epoch := record.epoch + 1, processId := process, lastAffirmedAt := at,
              status := Current, supersededBy := None, leaseAffirmedAt := None),
      TransferRecord(record.epoch, record.epoch + 1, record.processId, process, at, true) )
  }

  function Affirmed(record: OwnerRecord, at: int): OwnerRecord {
    record.(lastAffirmedAt := at, leaseAffirmedAt := Some(at))
  }

  function Released(record: OwnerRecord): OwnerRecord {
    record.(leaseAffirmedAt := None)
  }

  function Claimed(record: OwnerRecord, process: Id, at: int): OwnerRecord {
    record.(processId := process, lastAffirmedAt := at, leaseAffirmedAt := None)
  }
}
