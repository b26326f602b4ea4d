/** One run directory shared by any number of sessions, crash adoptions and resume claims, interleaved at
    every await. Every write of the owner record is a compare-and-swap on the whole record. A crash is a
    session that takes no further step; liveness probes and the lease gate may answer anything. */
module RunOwnership {
  import opened Basics
  import opened Ownership
  import opened LeaseHeartbeat
  import opened RunStates

  datatype Reconciliation = Reconciliation(verdict: Verdict, priorEpoch: int, newEpoch: Option<int>, eligible: bool)

  datatype ResumeState = ResumeState(status: RunStatus, tokens: Option<int>, tokenStatus: Option<TokenStatus>)

  // What a resuming process has read so far, and whether it found the owner dead and no transfer.
  datatype ResumeView = ResumeView(
    record: OwnerRecord, ownerDead: bool, transfer: Option<TransferRecord>, reconciliation: Option<Reconciliation>)

  datatype World = World(
    disk: OwnerRecord,
    transfer: Option<TransferRecord>,
    reconciliation: Option<Reconciliation>,
    sessions: map<Id, Session>,
    resuming: map<Id, ResumeView>,
    first: Id)

  predicate TokensUsable(state: ResumeState) {
    && state.tokenStatus != Some(TokensUnknown)
    && (state.tokens == None ==> state.tokenStatus == Some(TokensUnlimited))
  }

  datatype Eligibility =
    | Eligible
    | TransferIneligible | ReconciliationIneligible | VerdictNotLost | EpochsDiffer
    | OwnerSupersededByEpoch | PublishedForOlderEpoch | StatusNotCurrent | RunNotResumable | TokenUsageUnknown

  function EvaluateResumeEligibility(
    record: OwnerRecord, transfer: TransferRecord, reconciliation: Reconciliation, state: ResumeState): Eligibility
  {
    if !transfer.eligible then TransferIneligible
    else if !reconciliation.eligible then ReconciliationIneligible
    else if reconciliation.verdict != OwnerLost then VerdictNotLost
    else if reconciliation.newEpoch != Some(transfer.newEpoch) then EpochsDiffer
    else if record.supersededBy != None then OwnerSupersededByEpoch
    else if record.epoch != transfer.newEpoch then PublishedForOlderEpoch
    else if record.status != Current then StatusNotCurrent
    else if !Resumable(state.status) then RunNotResumable
    else if state.tokenStatus == Some(TokensUnknown)
         || (state.tokens == None && state.tokenStatus != Some(TokensUnlimited)) then TokenUsageUnknown
    else Eligible
  }

  // The three files a crash adoption publishes in one transaction.
  function Adoption(record: OwnerRecord, process: Id, at: int): (OwnerRecord, TransferRecord, Reconciliation) {
    var (next, transfer) := ApplyEpochTransfer(record, process, at);
    (next, transfer, Successful(transfer))
  }

  function Successful(transfer: TransferRecord): Reconciliation {
    Reconciliation(OwnerLost, transfer.priorEpoch, Some(transfer.newEpoch), true)
  }

  // The process that won the published transfer is still the one the record names.
  predicate StillWinner(record: OwnerRecord, transfer: TransferRecord) {
    transfer.eligible && record.epoch == transfer.newEpoch && record.processId == transfer.newProcess
  }

  // What a session's boundary write leaves on disk. Without a transfer of its own it has only a downgrade to
  // write, and one from either side of the published transfer does not replace a success the winner still owns.
  function BoundaryWrite(
    record: OwnerRecord, transfer: Option<TransferRecord>, persisted: Option<Reconciliation>, verdict: Verdict, priorEpoch: int): Reconciliation
  {
    if && transfer.Some? && StillWinner(record, transfer.value)
       && (priorEpoch == transfer.value.priorEpoch || priorEpoch == transfer.value.newEpoch)
       && (persisted == None || persisted == Some(Successful(transfer.value)))
    then Successful(transfer.value)
    else Reconciliation(verdict, priorEpoch, None, false)
  }

  datatype Act =
    | Schedules(a: Id, op: QueueOp)
    | ReachesHead(a: Id, now: int)
    | LandsAffirm(a: Id)
    | AffirmReturns(a: Id, now: int)
    | AffirmRefused(a: Id, failure: StoreFailure)
    | RereadsRecord(a: Id, readable: bool)
    | ReadsInSpan(a: Id)
    | LandsTransfer(a: Id, recovery: Option<ExecutionRecovery>, at: int)
    | AdoptsTransfer(a: Id)
    | LosesTransferEvent(a: Id)
    | EndsSpan(a: Id)
    | ReadsForAssert(a: Id)
    | DecidesAssert(a: Id, persisted: OwnerRecord)
    | CannotVerify(a: Id)
    | AppendSettles(a: Id, event: LeaseEvent, lands: bool)
    | Stops(a: Id)
    | Releases(a: Id, problem: Option<StoreFailure>)
    | WritesReconciliation(a: Id, verdict: Verdict, priorEpoch: int)
    | ReadsToResume(a: Id)
    | FindsOwnerDead(a: Id, status: RunStatus)
    | LandsAdoption(a: Id, at: int)
    | ReadsTransfer(a: Id)
    | ReadsReconciliation(a: Id)
    | LandsClaim(a: Id, state: ResumeState, at: int)

  predicate ResumeAct(act: Act) {
    || act.ReadsToResume? || act.FindsOwnerDead? || act.LandsAdoption?
    || act.ReadsTransfer? || act.ReadsReconciliation? || act.LandsClaim?
  }

  predicate ReadyToClaim(view: ResumeView, state: ResumeState) {
    && view.transfer.Some? && view.reconciliation.Some?
    && EvaluateResumeEligibility(view.record, view.transfer.value, view.reconciliation.value, state) == Eligible
  }

  predicate Enabled(w: World, act: Act) {
    match act
    case ReadsToResume(p) => p !in w.sessions && p != w.first
    case FindsOwnerDead(p, status) => p in w.resuming && w.transfer == None && Resumable(status)
    case LandsAdoption(p, at) =>
      p in w.resuming && p !in w.sessions && w.resuming[p].ownerDead && w.disk == w.resuming[p].record
    case ReadsTransfer(p) => p in w.resuming && w.transfer.Some?
    case ReadsReconciliation(p) => p in w.resuming && w.reconciliation.Some?
    case LandsClaim(p, state, at) =>
      && p in w.resuming && p !in w.sessions
      && ReadyToClaim(w.resuming[p], state)
      && w.disk == w.resuming[p].record
    case _ => !ResumeAct(act) && act.a in w.sessions && SessionEnabled(w, w.sessions[act.a], act)
  }

  predicate SessionEnabled(w: World, s: Session, act: Act) {
    match act
    case Schedules(_, _) => true
    case ReachesHead(_, _) => s.head.Idle? && s.pending != []
    case LandsAffirm(_) => s.head.Affirming? && w.disk == s.head.base
    case AffirmReturns(_, _) => s.head.AffirmWritten?
    case AffirmRefused(_, failure) => s.head.Affirming? && (failure == Mismatch ==> w.disk != s.head.base)
    case RereadsRecord(_, _) => s.head.Rereading?
    case ReadsInSpan(_) => s.head.SpanOpen?
    case LandsTransfer(_, recovery, _) =>
      s.head.SpanRead? && PermitsTransfer(s.head.record, recovery) && w.disk == s.head.record
    case AdoptsTransfer(_) => s.head.SpanWritten?
    case LosesTransferEvent(_) => s.head.SpanWritten?
    case AppendSettles(_, event, _) => event in s.events.inFlight
    case EndsSpan(_) => s.head.SpanOpen? || s.head.SpanRead?
    case DecidesAssert(_, persisted) => persisted in s.seen
    case Releases(_, failure) => MayRelease(s) && (failure == None ==> w.disk == s.expected)
    case ReadsForAssert(_) => true
    case CannotVerify(_) => true
    case Stops(_) => true
    case WritesReconciliation(_, _, _) => true
    case _ => false
  }

  // What the acting session's own state becomes.
  function SessionStep(w: World, s: Session, act: Act): Session
    requires SessionEnabled(w, s, act)
  {
    match act
    case Schedules(_, op) => Schedule(s, op)
    case ReachesHead(_, now) => StartHead(s, now)
    case LandsAffirm(_) => s.(head := AffirmWritten(Affirmed(s.head.base, s.head.at)))
    case AffirmReturns(_, now) => AffirmReturned(s, now)
    case AffirmRefused(_, failure) => AffirmFailed(s, failure)
    case RereadsRecord(_, readable) => RereadReturned(s, if readable then Some(w.disk) else None)
    case ReadsInSpan(_) => s.(head := SpanRead(w.disk))
    case LandsTransfer(a, _, at) => s.(head := SpanWritten(ApplyEpochTransfer(s.head.record, a, at).0))
    case AdoptsTransfer(_) => SpanAdopted(s)
    case LosesTransferEvent(_) => SpanUnadopted(s)
    case AppendSettles(_, event, lands) => AppendSettled(s, event, lands)
    case EndsSpan(_) => s.(head := Idle)
    case ReadsForAssert(_) => AssertRead(s, w.disk)
    case DecidesAssert(_, persisted) => AssertDecided(s, persisted).0
    case CannotVerify(_) => AssertUnverifiable(s)
    case Stops(_) => Stop(s)
    case Releases(_, failure) => ReleaseReturned(s, failure)
    case WritesReconciliation(_, _, _) => s
  }

  // The acting session moves, and its write, if the step is one, lands.
  function SessionApply(w: World, s: Session, act: Act): World
    requires act.a in w.sessions && s == w.sessions[act.a] && SessionEnabled(w, s, act)
  {
    var moved := w.(sessions := w.sessions[act.a := SessionStep(w, s, act)]);
    match act
    case LandsAffirm(_) => moved.(disk := Affirmed(s.head.base, s.head.at))
    case LandsTransfer(a, _, at) =>
      var (next, transfer, reconciliation) := Adoption(s.head.record, a, at);
      moved.(disk := next, transfer := Some(transfer), reconciliation := Some(reconciliation))
    case Releases(_, problem) => if problem == None then moved.(disk := Released(s.expected)) else moved
    case WritesReconciliation(_, verdict, priorEpoch) =>
      moved.(reconciliation := Some(BoundaryWrite(w.disk, w.transfer, w.reconciliation, verdict, priorEpoch)))
    case _ => moved
  }

  function Apply(w: World, act: Act): World
    requires Enabled(w, act)
  {
    match act
    case ReadsToResume(p) => w.(resuming := w.resuming[p := ResumeView(w.disk, false, None, None)])
    case FindsOwnerDead(p, _) => w.(resuming := w.resuming[p := w.resuming[p].(ownerDead := true)])
    case ReadsTransfer(p) => w.(resuming := w.resuming[p := w.resuming[p].(transfer := w.transfer)])
    case ReadsReconciliation(p) => w.(resuming := w.resuming[p := w.resuming[p].(reconciliation := w.reconciliation)])
    case LandsAdoption(p, at) =>
      var (next, transfer, reconciliation) := Adoption(w.resuming[p].record, p, at);
      w.(disk := next, transfer := Some(transfer), reconciliation := Some(reconciliation), resuming := w.resuming - {p})
    case LandsClaim(p, _, at) =>
      var next := Claimed(w.resuming[p].record, p, at);
      w.(disk := next, sessions := w.sessions[p := NewSession(next)], resuming := w.resuming - {p})
    case _ => SessionApply(w, w.sessions[act.a], act)
  }

  // Any schedule at all: a sequence of steps each of which is possible when it happens.
  predicate Legal(w: World, acts: seq<Act>)
    decreases |acts|
  {
    acts == [] || (Enabled(w, acts[0]) && Legal(Apply(w, acts[0]), acts[1..]))
  }

  function Run(w: World, acts: seq<Act>): World
    requires Legal(w, acts)
    decreases |acts|
  {
    if acts == [] then w else Run(Apply(w, acts[0]), acts[1..])
  }

  // The run as its first loop leaves it: any owner status, and a transfer only of the past.
  predicate Initial(w: World) {
    && w.disk.processId == w.first
    && w.resuming == map[]
    && (w.sessions == map[] || w.sessions == map[w.first := NewSession(w.disk)])
    && (w.transfer.Some? ==> w.transfer.value.newEpoch <= w.disk.epoch)
  }

  // assertHeld, taken as one instant.
  predicate Holds(w: World, a: Id) {
    a in w.sessions && !NamesSomeoneElse(w.disk, w.sessions[a].expected)
  }

  // ---- the invariant ----

  predicate HeadOwn(first: Id, a: Id, s: Session) {
    match s.head
    case Affirming(base, _) => base == s.expected
    case AffirmWritten(next) =>
      && next.processId == a && next.epoch == s.expected.epoch
      && next.supersededBy == s.expected.supersededBy && next.status == s.expected.status
    case SpanRead(record) => record.Settled() || record.processId == first
    case SpanWritten(next) => next.processId == a && next.Settled()
    case _ => true
  }

  predicate SessionInv(first: Id, a: Id, s: Session) {
    && s.expected.processId == a
    && (a == first || s.expected.Settled())
    && HeadOwn(first, a, s)
  }

  predicate Inv(w: World) {
    && (forall a :: a in w.sessions ==> SessionInv(w.first, a, w.sessions[a]) && EventsLatched(w.sessions[a]))
    && RecordInv(w)
    && (forall p :: p in w.resuming ==> p != w.first && ViewInv(w, w.resuming[p]))
  }

  // What a resume has read is of the past, and what it has read of the present epoch is of the process that
  // still owns it, unless another has claimed it since.
  predicate ViewInv(w: World, view: ResumeView) {
    && view.record.epoch <= w.disk.epoch
    && (view.record.epoch == w.disk.epoch && view.record.processId != w.disk.processId ==> w.disk.processId in w.sessions)
    && (view.transfer.Some? ==>
          w.transfer.Some?
          && (view.transfer == w.transfer || view.transfer.value.newEpoch < w.transfer.value.newEpoch))
    && (view.reconciliation.Some? ==> w.reconciliation.Some?)
  }

  // The steps that set out to append an event, or end an append.
  predicate Loud(act: Act) {
    || act.AffirmRefused? || act.Releases? || act.RereadsRecord?
    || act.DecidesAssert? || act.CannotVerify? || act.AppendSettles?
  }

  lemma QuietStep(w: World, s: Session, act: Act)
    requires SessionEnabled(w, s, act) && !Loud(act)
    ensures var next := SessionStep(w, s, act);
            next.events == s.events && next.superseded == s.superseded && next.signalled == s.signalled
  {
  }

  lemma StepKeepsLatches(w: World, s: Session, act: Act)
    requires EventsLatched(s) && SessionEnabled(w, s, act)
    ensures EventsLatched(SessionStep(w, s, act))
  {
    if !Loud(act) {
      QuietStep(w, s, act);
      SameEvents(s, SessionStep(w, s, act));
    } else {
      LoudStepKeepsLatches(w, s, act);
    }
  }

  lemma LoudStepKeepsLatches(w: World, s: Session, act: Act)
    requires EventsLatched(s) && SessionEnabled(w, s, act) && Loud(act)
    ensures EventsLatched(SessionStep(w, s, act))
  {
    match act {
      case AffirmRefused(_, failure) => RefusalKeepsLatches(s, failure);
      case Releases(_, problem) => ReleaseKeepsLatches(s, problem);
      case RereadsRecord(_, readable) => RereadKeepsLatches(s, if readable then Some(w.disk) else None);
      case DecidesAssert(_, persisted) => DecisionKeepsLatches(s, persisted);
      case CannotVerify(_) => LatchUnverifiable(s);
      case AppendSettles(_, event, lands) => LatchSettled(s, event, lands);
    }
  }

  lemma RereadKeepsLatches(s: Session, persisted: Option<OwnerRecord>)
    requires EventsLatched(s) && s.head.Rereading?
    ensures EventsLatched(RereadReturned(s, persisted))
  {
    LatchConclude(s);
  }

  lemma DecisionKeepsLatches(s: Session, persisted: OwnerRecord)
    requires EventsLatched(s) && persisted in s.seen
    ensures EventsLatched(AssertDecided(s, persisted).0)
  {
    LatchConclude(s.(seen := s.seen - {persisted}));
  }

  lemma RefusalKeepsLatches(s: Session, failure: StoreFailure)
    requires EventsLatched(s) && s.head.Affirming?
    ensures EventsLatched(AffirmFailed(s, failure))
  {
    LatchRecordOnce(s, UnattributableLock);
    LatchRecordOnce(s, UndeterminedLock);
  }

  lemma ReleaseKeepsLatches(s: Session, problem: Option<StoreFailure>)
    requires EventsLatched(s) && MayRelease(s)
    ensures EventsLatched(ReleaseReturned(s, problem))
  {
    LatchRecordOnce(s.(released := true), UnattributableLock);
    LatchRecordOnce(s.(released := true), UndeterminedLock);
  }

  predicate RecordInv(w: World) {
    && (w.disk.Settled() || (w.disk.processId == w.first && w.sessions.Keys <= {w.first}))
    && (w.transfer.Some? ==> w.transfer.value.newEpoch <= w.disk.epoch)
    && (w.disk.leaseAffirmedAt.Some? ==> w.disk.processId in w.sessions || w.disk.processId == w.first)
  }

  lemma SessionStepKeeps(w: World, s: Session, act: Act)
    requires RecordInv(w) && SessionInv(w.first, act.a, s) && SessionEnabled(w, s, act)
    ensures SessionInv(w.first, act.a, SessionStep(w, s, act))
  {
    if AffirmAct(act) {
      AffirmStepKeeps(w, s, act);
    } else if SpanAct(act) {
      SpanStepKeeps(w, s, act);
    } else {
      OtherStepKeeps(w, s, act);
    }
  }

  predicate AffirmAct(act: Act) {
    act.ReachesHead? || act.LandsAffirm? || act.AffirmReturns? || act.AffirmRefused? || act.RereadsRecord?
  }

  predicate SpanAct(act: Act) {
    act.ReadsInSpan? || act.LandsTransfer? || act.AdoptsTransfer? || act.LosesTransferEvent? || act.EndsSpan?
  }

  lemma AffirmStepKeeps(w: World, s: Session, act: Act)
    requires RecordInv(w) && SessionInv(w.first, act.a, s) && SessionEnabled(w, s, act) && AffirmAct(act)
    ensures SessionInv(w.first, act.a, SessionStep(w, s, act))
  {
  }

  lemma SpanStepKeeps(w: World, s: Session, act: Act)
    requires RecordInv(w) && SessionInv(w.first, act.a, s) && SessionEnabled(w, s, act) && SpanAct(act)
    ensures SessionInv(w.first, act.a, SessionStep(w, s, act))
  {
  }

  lemma OtherStepKeeps(w: World, s: Session, act: Act)
    requires SessionInv(w.first, act.a, s) && SessionEnabled(w, s, act) && !AffirmAct(act) && !SpanAct(act)
    ensures var next := SessionStep(w, s, act);
            next.expected == s.expected && next.head == s.head && SessionInv(w.first, act.a, next)
  {
  }

  // A session's own step: only a session the record still names can write it.
  lemma SessionActKeeps(w: World, act: Act)
    requires RecordInv(w) && act.a in w.sessions
    requires SessionInv(w.first, act.a, w.sessions[act.a]) && SessionEnabled(w, w.sessions[act.a], act)
    ensures var next := SessionApply(w, w.sessions[act.a], act);
            && RecordInv(next) && w.disk.epoch <= next.disk.epoch
            && next.disk.processId == w.disk.processId
            && (w.disk.processId != act.a ==> next.disk == w.disk)
            && (next.transfer == w.transfer || (next.transfer.Some? && next.transfer.value.newEpoch > w.disk.epoch))
            && (w.reconciliation.Some? ==> next.reconciliation.Some?)
  {
    var s := w.sessions[act.a];
    if act.LandsTransfer? {
      BoundaryTransferExactly(s.head.record, act.recovery);
    }
  }

  lemma ResumeActKeeps(w: World, act: Act)
    requires Inv(w) && Enabled(w, act) && ResumeAct(act)
    ensures Inv(Apply(w, act))
    ensures Apply(w, act).disk == w.disk || (act.a !in w.sessions && Apply(w, act).disk.processId == act.a)
    ensures w.disk.epoch <= Apply(w, act).disk.epoch
  {
  }

  // Every step keeps the invariant, never lowers the epoch, and never hands the record back to a
  // session it has stopped naming; a session it does not name never writes it.
  lemma StepKeeps(w: World, act: Act)
    requires Inv(w) && Enabled(w, act)
    ensures Inv(Apply(w, act))
    ensures w.disk.epoch <= Apply(w, act).disk.epoch
    ensures w.sessions.Keys <= Apply(w, act).sessions.Keys && Apply(w, act).first == w.first
    ensures forall a :: a in w.sessions && w.disk.processId != a ==> Apply(w, act).disk.processId != a
    ensures act.a in w.sessions && w.disk.processId != act.a ==> Apply(w, act).disk == w.disk
  {
    if ResumeAct(act) {
      ResumeActKeeps(w, act);
    } else {
      SessionActInv(w, act);
      SessionActKeeps(w, act);
    }
  }

  lemma SessionActInv(w: World, act: Act)
    requires Inv(w) && Enabled(w, act) && !ResumeAct(act)
    ensures Inv(Apply(w, act))
  {
    var s, next := w.sessions[act.a], Apply(w, act);
    SessionStepKeeps(w, s, act);
    StepKeepsLatches(w, s, act);
    SessionActKeeps(w, act);
    assert next.sessions == w.sessions[act.a := SessionStep(w, s, act)];
  }

  lemma InitialInv(w: World)
    requires Initial(w)
    ensures Inv(w)
  {
  }

  // Over every schedule the epoch never falls and the invariant holds.
  lemma {:induction false} EpochNeverFalls(w: World, acts: seq<Act>)
    requires Inv(w) && Legal(w, acts)
    ensures Inv(Run(w, acts)) && w.disk.epoch <= Run(w, acts).disk.epoch
    ensures w.sessions.Keys <= Run(w, acts).sessions.Keys
    decreases |acts|
  {
    if acts != [] {
      StepKeeps(w, acts[0]);
      EpochNeverFalls(Apply(w, acts[0]), acts[1..]);
    }
  }

  // At no instant of any schedule can two sessions pass assertHeld.
  lemma AtMostOneHolder(start: World, acts: seq<Act>, a: Id, b: Id)
    requires Initial(start) && Legal(start, acts)
    requires Holds(Run(start, acts), a) && Holds(Run(start, acts), b)
    ensures a == b
  {
    InitialInv(start);
    EpochNeverFalls(start, acts);
  }

  // Once the record has named another session, the earlier one is refused for ever, and every record
  // it reads from then on names somebody else.
  lemma {:induction false} LostForEver(w: World, acts: seq<Act>, a: Id)
    requires Inv(w) && Legal(w, acts)
    requires a in w.sessions && w.disk.processId != a
    ensures var later := Run(w, acts);
            && a in later.sessions && later.disk.processId != a && Inv(later)
            && !Holds(later, a)
            && (forall r :: r in later.sessions[a].seen ==> r in w.sessions[a].seen || r.processId != a)
    decreases |acts|
  {
    if acts == [] {
      assert SessionInv(w.first, a, w.sessions[a]);
    } else {
      StepKeeps(w, acts[0]);
      SeenStaysForeign(w, acts[0], a);
      LostForEver(Apply(w, acts[0]), acts[1..], a);
    }
  }

  // So whatever a loser does next fails closed: its comparisons refuse and its writes never commit.
  lemma LoserIsHarmless(w: World, acts: seq<Act>, act: Act)
    requires Inv(w) && Legal(w, acts)
    requires act.a in w.sessions && w.disk.processId != act.a
    requires Enabled(Run(w, acts), act)
    ensures var later := Run(w, acts);
            && Apply(later, act).disk == later.disk
            && (act.DecidesAssert? && act.persisted !in w.sessions[act.a].seen ==>
                  act.a in later.sessions && act.persisted in later.sessions[act.a].seen
                  && !AssertDecided(later.sessions[act.a], act.persisted).1)
  {
    LostForEver(w, acts, act.a);
    StepKeeps(Run(w, acts), act);
    assert SessionInv(Run(w, acts).first, act.a, Run(w, acts).sessions[act.a]);
  }

  lemma SeenStaysForeign(w: World, act: Act, a: Id)
    requires Inv(w) && Enabled(w, act)
    requires a in w.sessions && w.disk.processId != a
    ensures forall r :: r in Apply(w, act).sessions[a].seen ==> r in w.sessions[a].seen || r.processId != a
  {
    if !ResumeAct(act) {
      SeesTheDisk(w, w.sessions[act.a], act);
    }
  }

  lemma SeesTheDisk(w: World, s: Session, act: Act)
    requires SessionEnabled(w, s, act)
    ensures SessionStep(w, s, act).seen <= s.seen + {w.disk}
  {
    match act {
      case ReachesHead(_, _) =>
      case AffirmRefused(_, _) =>
      case RereadsRecord(_, _) =>
      case AdoptsTransfer(_) =>
      case ReadsForAssert(_) =>
      case DecidesAssert(_, _) =>
      case Releases(_, _) =>
      case _ =>
    }
  }

  // In any run at all, recording the loss is attempted exactly once if supersession is concluded and never
  // otherwise; since a rejected append is swallowed, at most one line is on record.
  lemma LeaseLostRecordedOnce(start: World, acts: seq<Act>, a: Id)
    requires Initial(start) && Legal(start, acts) && a in Run(start, acts).sessions
    ensures var s := Run(start, acts).sessions[a];
            && Count(s.events.attempted, LeaseLost) == (if s.superseded then 1 else 0)
            && Count(s.events.landed, LeaseLost) <= Count(s.events.attempted, LeaseLost)
  {
    InitialInv(start);
    EpochNeverFalls(start, acts);
    LostAtMostOnce(Run(start, acts).sessions[a]);
  }

  // ---- running one schedule after another ----

  lemma Unfold(w: World, acts: seq<Act>)
    requires acts != [] && Enabled(w, acts[0]) && Legal(Apply(w, acts[0]), acts[1..])
    ensures Legal(w, acts) && Run(w, acts) == Run(Apply(w, acts[0]), acts[1..])
  {
  }

  lemma TwoSteps(w: World, x: Act, y: Act)
    requires Enabled(w, x) && Enabled(Apply(w, x), y)
    ensures Legal(w, [x, y]) && Run(w, [x, y]) == Apply(Apply(w, x), y)
  {
    var w1 := Apply(w, x);
    assert [x, y][1..] == [y] && [y][1..] == [];
    Unfold(w1, [y]);
    Unfold(w, [x, y]);
  }

  lemma {:induction false} RunSplit(w: World, front: seq<Act>, back: seq<Act>)
    requires Legal(w, front) && Legal(Run(w, front), back)
    ensures Legal(w, front + back) && Run(w, front + back) == Run(Run(w, front), back)
    decreases |front|
  {
    if front == [] {
      assert front + back == back;
    } else {
      assert (front + back)[1..] == front[1..] + back;
      RunSplit(Apply(w, front[0]), front[1..], back);
    }
  }
}
