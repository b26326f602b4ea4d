/** What a crash adoption publishes, which resumes may claim it, and how many of those that read one record can. */
module ResumeClaims {
  import opened Basics
  import opened Ownership
  import opened LeaseHeartbeat
  import opened RunStates
  import opened RunOwnership

  // What a crash adoption publishes is eligible exactly for a resumable run whose tokens are usable.
  lemma AdoptionEligibleExactly(record: OwnerRecord, process: Id, at: int, state: ResumeState)
    ensures var (next, transfer, reconciliation) := Adoption(record, process, at);
            EvaluateResumeEligibility(next, transfer, reconciliation, state) == Eligible
            <==> Resumable(state.status) && TokensUsable(state)
  {
  }

  // Against any record the protocol can leave, a published pair is eligible exactly while the record
  // stands at the transfer's epoch.
  lemma EligibleExactly(w: World, transfer: TransferRecord, reconciliation: Reconciliation, state: ResumeState)
    requires w.disk.Settled()
    ensures EvaluateResumeEligibility(w.disk, transfer, reconciliation, state) == Eligible <==>
            && w.disk.epoch == transfer.newEpoch
            && transfer.eligible && reconciliation.eligible && reconciliation.verdict == OwnerLost
            && reconciliation.newEpoch == Some(transfer.newEpoch)
            && Resumable(state.status) && TokensUsable(state)
  {
  }

  // ---- what stands of an adoption ----

  // The record and the transfer are the adopter's, at its epoch.
  predicate Kept(w: World, p: Id, epoch: int) {
    && w.disk.epoch == epoch && w.disk.processId == p && w.disk.Settled()
    && w.transfer.Some? && StillWinner(w.disk, w.transfer.value) && w.transfer.value.priorEpoch == epoch - 1
    && w.reconciliation.Some?
  }

  // And the reconciliation is the one its transfer published.
  predicate Standing(w: World, p: Id, epoch: int) {
    Kept(w, p, epoch) && w.reconciliation == Some(Successful(w.transfer.value))
  }

  // No other process claims or adopts.
  predicate Unclaimed(acts: seq<Act>, p: Id) {
    forall i :: 0 <= i < |acts| ==> !acts[i].LandsAdoption? && (acts[i].LandsClaim? ==> acts[i].a == p)
  }

  // A boundary write whose session evaluated neither the adopted epoch nor the one before it.
  predicate Stale(act: Act, epoch: int) {
    act.WritesReconciliation? && act.priorEpoch != epoch && act.priorEpoch != epoch - 1
  }

  // Until somebody takes an adoption, it stays resumable exactly as long as no stale boundary write lands: no
  // affirm, release, span or other boundary write of any session spoils it, and a stale one spoils it for good.
  lemma AdoptionStands(w: World, acts: seq<Act>, p: Id, epoch: int, state: ResumeState)
    requires Inv(w) && Standing(w, p, epoch) && Legal(w, acts) && Unclaimed(acts, p)
    ensures var later := Run(w, acts);
            && Kept(later, p, epoch)
            && (EvaluateResumeEligibility(later.disk, later.transfer.value, later.reconciliation.value, state) == Eligible
                <==> Resumable(state.status) && TokensUsable(state) && forall i :: 0 <= i < |acts| ==> !Stale(acts[i], epoch))
  {
    StandsExactly(w, acts, p, epoch);
  }

  lemma {:induction false} StandsExactly(w: World, acts: seq<Act>, p: Id, epoch: int)
    requires Inv(w) && Kept(w, p, epoch) && Legal(w, acts) && Unclaimed(acts, p)
    requires Standing(w, p, epoch) || !w.reconciliation.value.eligible
    ensures var later := Run(w, acts);
            && Kept(later, p, epoch)
            && (Standing(later, p, epoch) || !later.reconciliation.value.eligible)
            && (Standing(later, p, epoch) <==>
                  Standing(w, p, epoch) && forall i :: 0 <= i < |acts| ==> !Stale(acts[i], epoch))
    decreases |acts|
  {
    if acts != [] {
      StepKeeps(w, acts[0]);
      StepStands(w, acts[0], p, epoch);
      StandsExactly(Apply(w, acts[0]), acts[1..], p, epoch);
      assert forall i :: 1 <= i < |acts| ==> acts[i] == acts[1..][i - 1];
    }
  }

  lemma StepStands(w: World, act: Act, p: Id, epoch: int)
    requires Inv(w) && Kept(w, p, epoch) && Enabled(w, act) && !act.LandsAdoption? && (act.LandsClaim? ==> act.a == p)
    requires Standing(w, p, epoch) || !w.reconciliation.value.eligible
    ensures var next := Apply(w, act);
            && Kept(next, p, epoch)
            && (Standing(next, p, epoch) || !next.reconciliation.value.eligible)
            && (Standing(next, p, epoch) <==> Standing(w, p, epoch) && !Stale(act, epoch))
  {
    if !ResumeAct(act) {
      assert SessionInv(w.first, act.a, w.sessions[act.a]);
    }
    if act.LandsTransfer? {
      BoundaryTransferExactly(w.disk, act.recovery);
    }
  }

  lemma AdoptionStarts(w: World, act: Act)
    requires Enabled(w, act) && act.LandsAdoption?
    ensures Standing(Apply(w, act), act.a, w.disk.epoch + 1)
  {
  }

  // Once the epoch has moved past a transfer, no reconciliation and no state make it eligible again.
  lemma PassedTransferNeverEligible(w: World, acts: seq<Act>, transfer: TransferRecord,
                                    reconciliation: Reconciliation, state: ResumeState)
    requires Inv(w) && Legal(w, acts) && transfer.newEpoch < w.disk.epoch
    ensures EvaluateResumeEligibility(Run(w, acts).disk, transfer, reconciliation, state) != Eligible
  {
    EpochNeverFalls(w, acts);
  }

  // Every write of the record carries a timestamp no earlier than the record's own.
  predicate Forward(w: World, act: Act) {
    match act
    case LandsAffirm(a) =>
      a in w.sessions && w.sessions[a].head.Affirming? ==> w.sessions[a].head.at >= w.disk.lastAffirmedAt
    case LandsTransfer(_, _, at) => at >= w.disk.lastAffirmedAt
    case LandsAdoption(_, at) => at >= w.disk.lastAffirmedAt
    case LandsClaim(_, _, at) => at >= w.disk.lastAffirmedAt
    case _ => true
  }

  predicate AllForward(w: World, acts: seq<Act>)
    requires Legal(w, acts)
    decreases |acts|
  {
    acts == [] || (Forward(w, acts[0]) && AllForward(Apply(w, acts[0]), acts[1..]))
  }

  lemma {:induction false} ClockNeverFalls(w: World, acts: seq<Act>)
    requires Inv(w) && Legal(w, acts) && AllForward(w, acts)
    ensures w.disk.lastAffirmedAt <= Run(w, acts).disk.lastAffirmedAt
    decreases |acts|
  {
    if acts != [] {
      StepKeeps(w, acts[0]);
      ClockNeverFallsAtOnce(w, acts[0]);
      ClockNeverFalls(Apply(w, acts[0]), acts[1..]);
    }
  }

  lemma ClockNeverFallsAtOnce(w: World, act: Act)
    requires Inv(w) && Enabled(w, act) && Forward(w, act)
    ensures w.disk.lastAffirmedAt <= Apply(w, act).disk.lastAffirmedAt
  {
    if !ResumeAct(act) {
      assert SessionInv(w.first, act.a, w.sessions[act.a]);
    }
  }

  // ---- one record, many claims ----

  // The pair a claimant of this epoch needs is still published.
  predicate Open(reconciliation: Option<Reconciliation>, epoch: int) {
    && reconciliation.Some? && reconciliation.value.eligible
    && reconciliation.value.verdict == OwnerLost && reconciliation.value.newEpoch == Some(epoch)
  }

  predicate CanStillClaim(w: World, p: Id) {
    p !in w.sessions && p != w.first && Open(w.reconciliation, w.disk.epoch)
  }

  // Whether the record can come back for `s`, another reader of it, whatever the clocks say: the process it
  // names makes the claim, or is a third one that can still make one.
  predicate MayComeBack(w: World, claim: Act, s: Id) {
    w.disk.processId == claim.a || (w.disk.processId != s && CanStillClaim(w, w.disk.processId))
  }

  // And if no clock ever runs backward: the claim is also stamped like the record.
  predicate LeavesRoom(w: World, claim: Act, s: Id) {
    && claim.LandsClaim?
    && claim.at == w.disk.lastAffirmedAt && w.disk.leaseAffirmedAt == None
    && MayComeBack(w, claim, s)
  }

  // Something that expects this record, read by `s`, commits now.
  ghost predicate CanCommit(w: World, s: Id, record: OwnerRecord) {
    && s in w.resuming && w.resuming[s].record == record
    && exists act: Act :: act.a == s && (act.LandsClaim? || act.LandsAdoption?) && Enabled(w, act)
  }

  ghost predicate LetsCommit(w: World, acts: seq<Act>, s: Id, record: OwnerRecord) {
    Legal(w, acts) && CanCommit(Run(w, acts), s, record)
  }

  ghost predicate LetsCommitForward(w: World, acts: seq<Act>, s: Id, record: OwnerRecord) {
    LetsCommit(w, acts, s, record) && AllForward(w, acts)
  }

  // What keeps a record from ever coming back for `s`.
  predicate Shut(w: World, record: OwnerRecord, s: Id) {
    && w.disk.epoch >= record.epoch
    && ( || w.disk.epoch > record.epoch
         || Gone(w, record)
         || (record.processId == s && (w.disk.processId != s || s in w.sessions))
         || Closed(w, record) )
  }

  // The process it names has been replaced and cannot come back.
  predicate Gone(w: World, record: OwnerRecord) {
    w.disk.processId != record.processId && (record.processId in w.sessions || record.processId == w.first)
  }

  // It has been replaced, and the pair it would need to come back is no longer published nor in its hands.
  predicate Closed(w: World, record: OwnerRecord) {
    && w.disk.processId != record.processId
    && w.reconciliation.Some? && !Open(w.reconciliation, record.epoch)
    && (record.processId in w.resuming ==>
          var view := w.resuming[record.processId];
          view.record.epoch < record.epoch || view.record.processId == record.processId || !Open(view.reconciliation, record.epoch))
  }

  lemma ResumeStepKeepsShut(w: World, act: Act, record: OwnerRecord, s: Id)
    requires Inv(w) && Enabled(w, act) && ResumeAct(act) && Shut(w, record, s)
    ensures Shut(Apply(w, act), record, s)
  {
  }

  lemma SessionStepKeepsShut(w: World, act: Act, record: OwnerRecord, s: Id)
    requires Inv(w) && Enabled(w, act) && !ResumeAct(act) && Shut(w, record, s)
    ensures Shut(Apply(w, act), record, s)
  {
    SessionActKeeps(w, act);
    var next := Apply(w, act);
    assert next.resuming == w.resuming && w.sessions.Keys <= next.sessions.Keys;
  }

  lemma {:induction false} StaysShut(w: World, acts: seq<Act>, record: OwnerRecord, s: Id)
    requires Inv(w) && Legal(w, acts) && Shut(w, record, s)
    ensures Inv(Run(w, acts)) && Shut(Run(w, acts), record, s)
    decreases |acts|
  {
    if acts != [] {
      StepKeeps(w, acts[0]);
      if ResumeAct(acts[0]) {
        ResumeStepKeepsShut(w, acts[0], record, s);
      } else {
        SessionStepKeepsShut(w, acts[0], record, s);
      }
      StaysShut(Apply(w, acts[0]), acts[1..], record, s);
    }
  }

  lemma ShutMeansNever(w: World, record: OwnerRecord, s: Id)
    requires Inv(w) && Shut(w, record, s)
    ensures !CanCommit(w, s, record)
  {
  }

  lemma ClaimShuts(w: World, claim: Act, s: Id)
    requires Inv(w) && claim.LandsClaim? && Enabled(w, claim) && !MayComeBack(w, claim, s)
    ensures Shut(Apply(w, claim), w.disk, s)
  {
    var record, next := w.disk, Apply(w, claim);
    assert ViewInv(w, w.resuming[claim.a]);
    if !Gone(next, record) && record.processId != s {
      assert Closed(next, record);
    }
  }

  // A claim after which the record cannot come back shuts every other reader of it out for good, over every
  // schedule and whatever the clocks do.
  lemma ClaimShutsOutForGood(w: World, claim: Act, acts: seq<Act>, s: Id)
    requires Inv(w) && claim.LandsClaim? && Enabled(w, claim) && !MayComeBack(w, claim, s)
    requires Legal(Apply(w, claim), acts)
    ensures !CanCommit(Run(Apply(w, claim), acts), s, w.disk)
  {
    StepKeeps(w, claim);
    ClaimShuts(w, claim, s);
    StaysShut(Apply(w, claim), acts, w.disk, s);
    ShutMeansNever(Run(Apply(w, claim), acts), w.disk, s);
  }

  // And if no clock runs backward, so does every claim stamped later than the record.
  lemma ClaimShutsOut(w: World, claim: Act, acts: seq<Act>, s: Id)
    requires Inv(w) && claim.LandsClaim? && Enabled(w, claim) && Forward(w, claim) && !LeavesRoom(w, claim, s)
    requires Legal(Apply(w, claim), acts) && AllForward(Apply(w, claim), acts)
    ensures !CanCommit(Run(Apply(w, claim), acts), s, w.disk)
  {
    if MayComeBack(w, claim, s) {
      StepKeeps(w, claim);
      ClockNeverFalls(Apply(w, claim), acts);
    } else {
      ClaimShutsOutForGood(w, claim, acts, s);
    }
  }

  // The way back: the process the record names reads again what was claimed over it, and claims in turn.
  function TakesBack(p: Id, state: ResumeState, at: int): seq<Act> {
    ReadsAll(p) + [LandsClaim(p, state, at)]
  }

  lemma RecordComesBack(w: World, first: Act, s: Id)
    requires Inv(w) && first.LandsClaim? && Enabled(w, first) && MayComeBack(w, first, s) && first.a != w.disk.processId
    ensures var acts := TakesBack(w.disk.processId, first.state, w.disk.lastAffirmedAt);
            var w1 := Apply(w, first);
            && Legal(w1, acts) && Run(w1, acts).disk == w.disk
            && (first.at == w.disk.lastAffirmedAt ==> AllForward(w1, acts))
            && Run(w1, acts).resuming == w.resuming - {first.a, w.disk.processId}
            && Run(w1, acts).sessions.Keys == w.sessions.Keys + {first.a, w.disk.processId}
  {
    var p, w1 := w.disk.processId, Apply(w, first);
    assert ViewInv(w, w.resuming[first.a]);
    ReadsAllRuns(w1, p);
    var w2 := Run(w1, ReadsAll(p));
    var claim := LandsClaim(p, first.state, w.disk.lastAffirmedAt);
    assert Enabled(w2, claim);
    assert Apply(w2, claim).disk == w.disk;
    assert [claim][1..] == [];
    Unfold(w2, [claim]);
    RunSplit(w1, ReadsAll(p), [claim]);
    if first.at == w.disk.lastAffirmedAt {
      ReadsAllForward(w1, p);
      ForwardSplit(w1, ReadsAll(p), [claim]);
    }
  }

  // Or, with a clock that has gone back: the claimant is the named process itself, affirms with the record's
  // own stamp, stops and releases.
  function OwnBack(q: Id, at: int): seq<Act> {
    [Schedules(q, AffirmOp), ReachesHead(q, at)] + ([LandsAffirm(q), AffirmReturns(q, at)] + [Stops(q), Releases(q, None)])
  }

  // The world with one session and the record replaced.
  function With(w: World, q: Id, s: Session, disk: OwnerRecord): World {
    w.(sessions := w.sessions[q := s], disk := disk)
  }

  lemma AffirmBegins(w: World, q: Id, at: int)
    requires q in w.sessions && w.sessions[q] == NewSession(w.disk)
    ensures var acts := [Schedules(q, AffirmOp), ReachesHead(q, at)];
            && Legal(w, acts)
            && Run(w, acts) == With(w, q, NewSession(w.disk).(head := Affirming(w.disk, at)), w.disk)
  {
    assert NewSession(w.disk).pending + [AffirmOp] == [AffirmOp] && [AffirmOp][1..] == [];
    TwoSteps(w, Schedules(q, AffirmOp), ReachesHead(q, at));
  }

  lemma AffirmEnds(w: World, q: Id, at: int)
    requires q in w.sessions && w.sessions[q] == NewSession(w.disk).(head := Affirming(w.disk, at))
    ensures var acts := [LandsAffirm(q), AffirmReturns(q, at)];
            var next := Affirmed(w.disk, at);
            && Legal(w, acts)
            && Run(w, acts) == With(w, q, NewSession(next).(lastAffirmAt := Some(at)), next)
  {
    TwoSteps(w, LandsAffirm(q), AffirmReturns(q, at));
  }

  lemma StopsAndReleases(w: World, q: Id, at: int)
    requires q in w.sessions && w.sessions[q] == NewSession(w.disk).(lastAffirmAt := Some(at))
    ensures var acts := [Stops(q), Releases(q, None)];
            && Legal(w, acts)
            && Run(w, acts).disk == Released(w.disk) && Run(w, acts).resuming == w.resuming
            && Run(w, acts).sessions.Keys == w.sessions.Keys
  {
    TwoSteps(w, Stops(q), Releases(q, None));
  }

  lemma RecordAffirmedBack(w: World, q: Id, at: int)
    requires q in w.sessions && w.sessions[q] == NewSession(w.disk)
    ensures var acts := OwnBack(q, at);
            && Legal(w, acts)
            && Run(w, acts).disk == w.disk.(lastAffirmedAt := at, leaseAffirmedAt := None)
            && Run(w, acts).resuming == w.resuming && Run(w, acts).sessions.Keys == w.sessions.Keys
  {
    var w1 := With(w, q, NewSession(w.disk).(head := Affirming(w.disk, at)), w.disk);
    var next := Affirmed(w.disk, at);
    var w2 := With(w, q, NewSession(next).(lastAffirmAt := Some(at)), next);
    AffirmBegins(w, q, at);
    AffirmEnds(w1, q, at);
    assert With(w1, q, NewSession(next).(lastAffirmAt := Some(at)), next) == w2;
    StopsAndReleases(w2, q, at);
    RunSplit(w1, [LandsAffirm(q), AffirmReturns(q, at)], [Stops(q), Releases(q, None)]);
    RunSplit(w, [Schedules(q, AffirmOp), ReachesHead(q, at)], [LandsAffirm(q), AffirmReturns(q, at)] + [Stops(q), Releases(q, None)]);
  }

  // Of two resumes ready to claim the record they both read, the second gets to commit on some later schedule
  // if and only if the record may come back after the first claim. No clock is trusted.
  lemma SecondClaimExactly(w: World, first: Act, second: Act)
    requires Inv(w) && first.LandsClaim? && second.LandsClaim? && first.a != second.a
    requires Enabled(w, first) && Enabled(w, second)
    ensures (exists acts :: LetsCommit(Apply(w, first), acts, second.a, w.disk)) <==> MayComeBack(w, first, second.a)
  {
    var w1, s := Apply(w, first), second.a;
    if MayComeBack(w, first, s) {
      var acts;
      if first.a == w.disk.processId {
        acts := OwnBack(first.a, w.disk.lastAffirmedAt);
        RecordAffirmedBack(w1, first.a, w.disk.lastAffirmedAt);
      } else {
        acts := TakesBack(w.disk.processId, first.state, w.disk.lastAffirmedAt);
        RecordComesBack(w, first, s);
      }
      assert Enabled(Run(w1, acts), second);
      assert LetsCommit(w1, acts, s, w.disk);
    } else {
      forall acts | LetsCommit(w1, acts, s, w.disk)
        ensures false
      {
        ClaimShutsOutForGood(w, first, acts, s);
      }
    }
  }

  // On schedules whose stamps never run backward, if and only if the first claim is also stamped like the record.
  lemma SecondClaimForward(w: World, first: Act, second: Act)
    requires Inv(w) && first.LandsClaim? && second.LandsClaim? && first.a != second.a
    requires Enabled(w, first) && Enabled(w, second) && Forward(w, first)
    ensures (exists acts :: LetsCommitForward(Apply(w, first), acts, second.a, w.disk)) <==> LeavesRoom(w, first, second.a)
  {
    var w1, s := Apply(w, first), second.a;
    if LeavesRoom(w, first, s) {
      if first.a == w.disk.processId {
        assert w1.disk == w.disk && Enabled(w1, second);
        assert LetsCommitForward(w1, [], s, w.disk);
      } else {
        RecordComesBack(w, first, s);
        var acts := TakesBack(w.disk.processId, first.state, first.at);
        assert Enabled(Run(w1, acts), second);
        assert LetsCommitForward(w1, acts, s, w.disk);
      }
    } else {
      forall acts | LetsCommitForward(w1, acts, s, w.disk)
        ensures false
      {
        ClaimShutsOut(w, first, acts, s);
      }
    }
  }

  lemma ReadsAllForward(w: World, p: Id)
    requires Legal(w, ReadsAll(p))
    ensures AllForward(w, ReadsAll(p))
  {
    var acts := ReadsAll(p);
    var w1 := Apply(w, acts[0]);
    var w2 := Apply(w1, acts[1]);
    assert acts[1..][1..] == acts[2..] && acts[2..][1..] == [];
    assert AllForward(w2, acts[2..]);
    assert AllForward(w1, acts[1..]);
  }

  lemma {:induction false} ForwardSplit(w: World, front: seq<Act>, back: seq<Act>)
    requires Legal(w, front) && AllForward(w, front) && Legal(Run(w, front), back) && AllForward(Run(w, front), back)
    ensures Legal(w, front + back) && AllForward(w, front + back)
    decreases |front|
  {
    RunSplit(w, front, back);
    if front == [] {
      assert front + back == back;
    } else {
      assert (front + back)[1..] == front[1..] + back;
      ForwardSplit(Apply(w, front[0]), front[1..], back);
    }
  }

  // Room is left in two ways. An adopter that claims within its adoption's millisecond rewrites the record
  // unchanged, and another resume that read the same record also starts a loop.
  lemma SameMillisecondClaims(record: OwnerRecord, p: Id, q: Id, at: int)
    requires p != q && record.processId != p && record.processId != q
    ensures var w := World(record, None, None, map[], map[], record.processId);
            && Initial(w) && Legal(w, Adopts(p, at) + (ReadsAll(p) + (ReadsAll(q) + BothClaim(p, q, at))))
            && {p, q} <= Run(w, Adopts(p, at) + (ReadsAll(p) + (ReadsAll(q) + BothClaim(p, q, at)))).sessions.Keys
  {
    var w := World(record, None, None, map[], map[], record.processId);
    var (next, transfer, reconciliation) := Adoption(record, p, at);
    var view := ResumeView(next, false, Some(transfer), Some(reconciliation));
    AdoptsRuns(record, p, at);
    ReadsAllRuns(Adopted(record, p, at, map[]), p);
    ReadsAllRuns(Adopted(record, p, at, map[p := view]), q);
    ClaimsTwice(record, p, q, at);
    RunSplit(Adopted(record, p, at, map[p := view]), ReadsAll(q), BothClaim(p, q, at));
    RunSplit(Adopted(record, p, at, map[]), ReadsAll(p), ReadsAll(q) + BothClaim(p, q, at));
    RunSplit(w, Adopts(p, at), ReadsAll(p) + (ReadsAll(q) + BothClaim(p, q, at)));
  }

  // Or a third process claims first, in that millisecond too; the adopter reads again and claims over it, which
  // puts the record back; and the other reader of the adopted record then commits as well.
  lemma RestoredRecordClaims(record: OwnerRecord, p: Id, q: Id, s: Id, at: int)
    requires p != q && p != s && q != s && record.processId !in {p, q, s}
    ensures var w := World(record, None, None, map[], map[], record.processId);
            var acts := ClaimsAround(p, q, s, at);
            Initial(w) && Legal(w, acts) && {q, s} <= Run(w, acts).sessions.Keys
  {
    var w := World(record, None, None, map[], map[], record.processId);
    var (next, transfer, reconciliation) := Adoption(record, p, at);
    var view := ResumeView(next, false, Some(transfer), Some(reconciliation));
    var read := Adopted(record, p, at, map[q := view, s := view]);
    AdoptsRuns(record, p, at);
    ReadsAllRuns(Adopted(record, p, at, map[]), q);
    ReadsAllRuns(Adopted(record, p, at, map[q := view]), s);
    RunSplit(Adopted(record, p, at, map[]), ReadsAll(q), ReadsAll(s));
    RunSplit(w, Adopts(p, at), ReadsAll(q) + ReadsAll(s));
    InitialInv(w);
    EpochNeverFalls(w, Adopts(p, at) + (ReadsAll(q) + ReadsAll(s)));
    ClaimsAroundRuns(read, p, q, s, at);
    RunSplit(w, Adopts(p, at) + (ReadsAll(q) + ReadsAll(s)), LaterClaims(p, q, s, at));
  }

  function ReadyState(): ResumeState {
    ResumeState(Executing, Some(1), Some(TokensKnown))
  }

  function LaterClaims(p: Id, q: Id, s: Id, at: int): seq<Act> {
    [LandsClaim(q, ReadyState(), at)] + (TakesBack(p, ReadyState(), at) + [LandsClaim(s, ReadyState(), at)])
  }

  function ClaimsAround(p: Id, q: Id, s: Id, at: int): seq<Act> {
    Adopts(p, at) + (ReadsAll(q) + ReadsAll(s)) + LaterClaims(p, q, s, at)
  }

  lemma ClaimsAroundRuns(w: World, p: Id, q: Id, s: Id, at: int)
    requires Inv(w) && p != q && p != s && q != s && w.sessions == map[] && p != w.first && q in w.resuming && s in w.resuming
    requires w.disk.processId == p && w.disk.lastAffirmedAt == at && w.disk.leaseAffirmedAt == None
    requires Enabled(w, LandsClaim(q, ReadyState(), at)) && Enabled(w, LandsClaim(s, ReadyState(), at))
    requires Open(w.reconciliation, w.disk.epoch)
    ensures Legal(w, LaterClaims(p, q, s, at)) && {q, s} <= Run(w, LaterClaims(p, q, s, at)).sessions.Keys
  {
    var first, last := LandsClaim(q, ReadyState(), at), LandsClaim(s, ReadyState(), at);
    var back := TakesBack(p, ReadyState(), at);
    RecordComesBack(w, first, s);
    var w2 := Run(Apply(w, first), back);
    assert Enabled(w2, last);
    assert [last][1..] == [];
    Unfold(w2, [last]);
    RunSplit(Apply(w, first), back, [last]);
    assert LaterClaims(p, q, s, at)[1..] == back + [last];
    Unfold(w, LaterClaims(p, q, s, at));
  }

  function Adopts(p: Id, at: int): seq<Act> {
    [ReadsToResume(p), FindsOwnerDead(p, Executing), LandsAdoption(p, at)]
  }

  function ReadsAll(p: Id): seq<Act> {
    [ReadsToResume(p), ReadsTransfer(p), ReadsReconciliation(p)]
  }

  function BothClaim(p: Id, q: Id, at: int): seq<Act> {
    [LandsClaim(p, ReadyState(), at), LandsClaim(q, ReadyState(), at)]
  }

  function Adopted(record: OwnerRecord, p: Id, at: int, resuming: map<Id, ResumeView>): World {
    var (next, transfer, reconciliation) := Adoption(record, p, at);
    World(next, Some(transfer), Some(reconciliation), map[], resuming, record.processId)
  }

  lemma AdoptsRuns(record: OwnerRecord, p: Id, at: int)
    requires record.processId != p
    ensures var w := World(record, None, None, map[], map[], record.processId);
            Legal(w, Adopts(p, at)) && Run(w, Adopts(p, at)) == Adopted(record, p, at, map[])
  {
    var w := World(record, None, None, map[], map[], record.processId);
    var acts := Adopts(p, at);
    var w1 := Apply(w, acts[0]);
    var w2 := Apply(w1, acts[1]);
    assert Apply(w2, acts[2]) == Adopted(record, p, at, map[]);
    Unfold(w2, acts[2..]);
    Unfold(w1, acts[1..]);
    Unfold(w, acts);
  }

  lemma ReadsAllRuns(w: World, p: Id)
    requires p !in w.sessions && p != w.first && w.transfer.Some? && w.reconciliation.Some?
    ensures Legal(w, ReadsAll(p))
    ensures Run(w, ReadsAll(p)) == w.(resuming := w.resuming[p := ResumeView(w.disk, false, w.transfer, w.reconciliation)])
  {
    var x, y, z := ReadsToResume(p), ReadsTransfer(p), ReadsReconciliation(p);
    ReadsTwo(w, p);
    var w2 := Run(w, [x, y]);
    assert Apply(w2, z).resuming == w.resuming[p := ResumeView(w.disk, false, w.transfer, w.reconciliation)];
    assert [z][1..] == [];
    Unfold(w2, [z]);
    RunSplit(w, [x, y], [z]);
    assert [x, y] + [z] == ReadsAll(p);
  }

  lemma ReadsTwo(w: World, p: Id)
    requires p !in w.sessions && p != w.first && w.transfer.Some?
    ensures var acts := [ReadsToResume(p), ReadsTransfer(p)];
            Legal(w, acts) && Run(w, acts) == w.(resuming := w.resuming[p := ResumeView(w.disk, false, w.transfer, None)])
  {
    var w1 := Apply(w, ReadsToResume(p));
    assert w1.resuming == w.resuming[p := ResumeView(w.disk, false, None, None)];
    assert Apply(w1, ReadsTransfer(p)).resuming == w.resuming[p := ResumeView(w.disk, false, w.transfer, None)];
    TwoSteps(w, ReadsToResume(p), ReadsTransfer(p));
  }

  lemma ClaimsTwice(record: OwnerRecord, p: Id, q: Id, at: int)
    requires p != q && record.processId != p && record.processId != q
    ensures var (next, transfer, reconciliation) := Adoption(record, p, at);
            var view := ResumeView(next, false, Some(transfer), Some(reconciliation));
            var w := Adopted(record, p, at, map[p := view, q := view]);
            Legal(w, BothClaim(p, q, at)) && {p, q} <= Run(w, BothClaim(p, q, at)).sessions.Keys
  {
    var (next, transfer, reconciliation) := Adoption(record, p, at);
    var view := ResumeView(next, false, Some(transfer), Some(reconciliation));
    var w := Adopted(record, p, at, map[p := view, q := view]);
    var acts := BothClaim(p, q, at);
    var w1 := Apply(w, acts[0]);
    assert w1.disk == next;
    Unfold(w1, acts[1..]);
    Unfold(w, acts);
  }
}
