/** When a session that nobody else disturbs can come to believe it has lost its run, and when it cannot. */
module LeaseLoss {
  import opened Basics
  import opened Ownership
  import opened LeaseHeartbeat
  import opened RunOwnership

  // ---- the queue ----

  // Nobody but `a` commits a write of the record.
  predicate Undisturbed(w: World, acts: seq<Act>, a: Id)
    requires Legal(w, acts)
    decreases |acts|
  {
    acts == [] ||
    ((acts[0].a == a || Apply(w, acts[0]).disk == w.disk) && Undisturbed(Apply(w, acts[0]), acts[1..], a))
  }

  // What ties the record to the queue of the one session writing it. `superseded` may be set by a
  // concurrent assertHeld, after which an adoption is dropped; the queue itself never concludes.
  predicate Tied(disk: OwnerRecord, s: Session) {
    && !s.signalled
    && (s.released ==> s.stopped && s.head.Idle?)
    && match s.head
       case Idle =>
         s.superseded || disk == s.expected || (s.released && disk == Released(s.expected))
       case SpanOpen => s.superseded || disk == s.expected
       case SpanRead(record) => disk == record && (s.superseded || disk == s.expected)
       case Affirming(base, _) => disk == base
       case AffirmWritten(next) => disk == next
       case SpanWritten(next) => disk == next && (s.superseded || next.epoch == s.expected.epoch + 1)
       case Rereading => false
  }

  lemma StepKeepsTied(w: World, s: Session, act: Act)
    requires SessionInv(w.first, act.a, s) && SessionEnabled(w, s, act) && Tied(w.disk, s) && !act.LosesTransferEvent?
    ensures act.LandsAffirm? ==> Tied(Affirmed(s.head.base, s.head.at), SessionStep(w, s, act))
    ensures act.LandsTransfer? ==> Tied(ApplyEpochTransfer(s.head.record, act.a, act.at).0, SessionStep(w, s, act))
    ensures act.Releases? && act.problem == None ==> Tied(Released(s.expected), SessionStep(w, s, act))
    ensures !act.LandsAffirm? && !act.LandsTransfer? && !(act.Releases? && act.problem == None) ==>
            Tied(w.disk, SessionStep(w, s, act))
  {
  }

  lemma OwnStepKeepsTied(w: World, act: Act)
    requires Inv(w) && act.a in w.sessions && Enabled(w, act) && Tied(w.disk, w.sessions[act.a]) && !act.LosesTransferEvent?
    ensures act.a in Apply(w, act).sessions && Tied(Apply(w, act).disk, Apply(w, act).sessions[act.a])
  {
    if !ResumeAct(act) {
      StepKeepsTied(w, w.sessions[act.a], act);
    }
  }

  // Without a foreign commit the queue never reaches a mismatch, so it never concludes supersession,
  // whatever the mix of timer affirms, direct affirms and spans that transfer the epoch, as long as every
  // transfer that commits gets its event appended and is adopted.
  lemma {:induction false} NoFalseLoss(w: World, acts: seq<Act>, a: Id)
    requires Inv(w) && Legal(w, acts) && Undisturbed(w, acts, a)
    requires a in w.sessions && Tied(w.disk, w.sessions[a]) && LosesTransferEvent(a) !in acts
    ensures var later := Run(w, acts);
            && a in later.sessions && Tied(later.disk, later.sessions[a])
            && !later.sessions[a].signalled && !later.sessions[a].head.Rereading?
    decreases |acts|
  {
    if acts != [] {
      StepKeeps(w, acts[0]);
      if acts[0].a == a {
        OwnStepKeepsTied(w, acts[0]);
      }
      NoFalseLoss(Apply(w, acts[0]), acts[1..], a);
    }
  }

  // ---- assertHeld, outside the queue ----

  // A record no boundary analysis takes over. Every writer of the original leaves one behind.
  predicate Firm(record: OwnerRecord) {
    record.supersededBy == None && record.status != Lost
  }

  // A session the record names: it expects this very epoch, and so does every read it has yet to compare.
  predicate Secure(disk: OwnerRecord, s: Session) {
    && s.expected.epoch == disk.epoch && Firm(s.expected) && !s.superseded
    && forall r :: r in s.seen ==> r.epoch == disk.epoch && r.supersededBy == None && r.processId == disk.processId
  }

  predicate LossesTrue(w: World) {
    && Firm(w.disk)
    && forall a :: a in w.sessions ==>
         !w.sessions[a].head.SpanWritten? && (w.disk.processId == a ==> Secure(w.disk, w.sessions[a]))
  }

  lemma FirmNeverTransferred(w: World, act: Act)
    requires Firm(w.disk) && Enabled(w, act)
    ensures !act.LandsTransfer?
  {
    if act.LandsTransfer? {
      BoundaryTransferExactly(w.disk, act.recovery);
    }
  }

  lemma OwnStepKeepsSecure(w: World, s: Session, act: Act)
    requires SessionInv(w.first, act.a, s) && SessionEnabled(w, s, act) && !act.LandsTransfer?
    requires w.disk.processId == act.a && Firm(w.disk) && Secure(w.disk, s) && !s.head.SpanWritten?
    ensures Firm(DiskAfter(w.disk, s, act)) && Secure(DiskAfter(w.disk, s, act), SessionStep(w, s, act))
  {
  }

  lemma SpanStaysUnwritten(w: World, s: Session, act: Act)
    requires SessionEnabled(w, s, act) && !act.LandsTransfer? && !s.head.SpanWritten?
    ensures !SessionStep(w, s, act).head.SpanWritten?
  {
  }

  // What the step leaves on disk, for a step that is no transfer.
  function DiskAfter(disk: OwnerRecord, s: Session, act: Act): OwnerRecord {
    if act.LandsAffirm? && s.head.Affirming? then Affirmed(s.head.base, s.head.at)
    else if act.Releases? && act.problem == None then Released(s.expected)
    else disk
  }

  lemma SessionActIs(w: World, act: Act)
    requires act.a in w.sessions && SessionEnabled(w, w.sessions[act.a], act) && !act.LandsTransfer?
    ensures var s, next := w.sessions[act.a], SessionApply(w, w.sessions[act.a], act);
            && next.sessions == w.sessions[act.a := SessionStep(w, s, act)]
            && next.disk == DiskAfter(w.disk, s, act) && next.first == w.first
  {
  }

  lemma StepKeepsLossesTrue(w: World, act: Act)
    requires Inv(w) && LossesTrue(w) && Enabled(w, act)
    ensures LossesTrue(Apply(w, act))
  {
    FirmNeverTransferred(w, act);
    if !ResumeAct(act) {
      SessionStepKeepsLossesTrue(w, act);
    }
  }

  lemma SessionStepKeepsLossesTrue(w: World, act: Act)
    requires Inv(w) && LossesTrue(w) && Enabled(w, act) && !ResumeAct(act) && !act.LandsTransfer?
    ensures LossesTrue(Apply(w, act))
  {
    var s := w.sessions[act.a];
    SessionActIs(w, act);
    SessionActKeeps(w, act);
    SpanStaysUnwritten(w, s, act);
    if w.disk.processId == act.a {
      OwnStepKeepsSecure(w, s, act);
    }
  }

  // On such a record no session ever loses its run falsely, whoever else is at work, however its reads, its
  // affirms and its spans interleave: whenever it has concluded a loss the record names somebody else, and an
  // assertHeld at any instant passes exactly for the session the record names.
  lemma {:induction false} LossIsTrue(w: World, acts: seq<Act>)
    requires Inv(w) && LossesTrue(w) && Legal(w, acts)
    ensures var later := Run(w, acts);
            && Inv(later) && LossesTrue(later)
            && forall a :: a in later.sessions ==>
                 && (later.sessions[a].superseded ==> later.disk.processId != a)
                 && (Holds(later, a) <==> later.disk.processId == a)
    decreases |acts|
  {
    if acts == [] {
      assert forall a :: a in w.sessions ==> SessionInv(w.first, a, w.sessions[a]);
    } else {
      StepKeeps(w, acts[0]);
      StepKeepsLossesTrue(w, acts[0]);
      LossIsTrue(Apply(w, acts[0]), acts[1..]);
    }
  }

  lemma FirmStartIsTrue(start: World)
    requires Initial(start) && Firm(start.disk)
    ensures Inv(start) && LossesTrue(start)
  {
    InitialInv(start);
  }

  // ---- the one record that can be taken over ----

  // Some comparison has on one side a record read before the session's transfer and on the other the
  // expectation after its adoption, or the other way round.
  predicate ComparesAcross(acts: seq<Act>, a: Id, epoch: int, adopted: bool) {
    exists j :: 0 <= j < |acts| && Across(acts, j, a, epoch, adopted)
  }

  predicate Across(acts: seq<Act>, j: nat, a: Id, epoch: int, adopted: bool)
    requires j < |acts|
  {
    && acts[j].DecidesAssert? && acts[j].a == a
    && acts[j].persisted.epoch != epoch + (if adopted || AdoptsTransfer(a) in acts[..j] then 1 else 0)
  }

  lemma ComparesFirst(acts: seq<Act>, a: Id, epoch: int, adopted: bool)
    requires acts != []
    ensures ComparesAcross(acts, a, epoch, adopted) <==>
              Across(acts, 0, a, epoch, adopted)
              || ComparesAcross(acts[1..], a, epoch, adopted || acts[0] == AdoptsTransfer(a))
  {
    var rest, after := acts[1..], adopted || acts[0] == AdoptsTransfer(a);
    forall j | 0 <= j < |rest|
      ensures Across(rest, j, a, epoch, after) <==> Across(acts, j + 1, a, epoch, adopted)
    {
      assert acts[..j + 1] == [acts[0]] + rest[..j];
    }
    if ComparesAcross(acts, a, epoch, adopted) && !Across(acts, 0, a, epoch, adopted) {
      var j :| 0 <= j < |acts| && Across(acts, j, a, epoch, adopted);
      assert Across(rest, j - 1, a, epoch, after);
    }
    if ComparesAcross(rest, a, epoch, after) {
      var j :| 0 <= j < |rest| && Across(rest, j, a, epoch, after);
      assert Across(acts, j + 1, a, epoch, adopted);
    }
  }

  // A session alone with its record since epoch `epoch`: at most one transfer, and `adopted` says whether the
  // session knows of it.
  predicate Lone(w: World, a: Id, epoch: int, adopted: bool) {
    a in w.sessions && Era(w.disk, w.sessions[a], a, epoch, adopted) && Linked(w.disk, w.sessions[a], epoch, adopted)
  }

  predicate Era(disk: OwnerRecord, s: Session, a: Id, epoch: int, adopted: bool) {
    && disk.processId == a && disk.supersededBy == None
    && (disk.epoch == epoch || (disk.epoch == epoch + 1 && disk.status != Lost))
    && (adopted ==> disk.epoch == epoch + 1)
    && (s.head.SpanWritten? ==> s.head.next.epoch == epoch + 1 == disk.epoch && !adopted)
    && (!s.superseded || !adopted ==> s.expected.epoch == epoch + (if adopted then 1 else 0))
    && forall r :: r in s.seen ==> r.processId == a && r.supersededBy == None
  }

  // The transfer is on disk, and the span that made it is over without adopting it.
  predicate Behind(disk: OwnerRecord, s: Session, epoch: int, adopted: bool) {
    disk.epoch == epoch + 1 && !adopted && !s.head.SpanWritten?
  }

  predicate Linked(disk: OwnerRecord, s: Session, epoch: int, adopted: bool) {
    if Behind(disk, s, epoch, adopted) then !s.head.AffirmWritten? else Tied(disk, s)
  }

  // A comparison across the transfer, or a reread after a mismatch.
  predicate Concludes(act: Act, epoch: int, adopted: bool) {
    || (act.DecidesAssert? && act.persisted.epoch != epoch + (if adopted then 1 else 0))
    || (act.RereadsRecord? && act.readable)
  }

  lemma LoneOwnStep(w: World, act: Act, epoch: int, adopted: bool)
    requires Inv(w) && Enabled(w, act) && Lone(w, act.a, epoch, adopted)
    ensures Lone(Apply(w, act), act.a, epoch, adopted || act == AdoptsTransfer(act.a))
    ensures Apply(w, act).sessions[act.a].superseded <==> w.sessions[act.a].superseded || Concludes(act, epoch, adopted)
  {
    if !ResumeAct(act) {
      var s := w.sessions[act.a];
      assert SessionInv(w.first, act.a, s);
      if act.LandsTransfer? {
        LoneTransfers(w, s, act, epoch, adopted);
      } else {
        SessionActIs(w, act);
        LoneStep(w, s, act, epoch, adopted);
        LoneLinks(w, s, act, epoch, adopted);
      }
    }
  }

  lemma LoneTransfers(w: World, s: Session, act: Act, epoch: int, adopted: bool)
    requires SessionInv(w.first, act.a, s) && Era(w.disk, s, act.a, epoch, adopted) && Linked(w.disk, s, epoch, adopted)
    requires SessionEnabled(w, s, act) && act.LandsTransfer?
    ensures var next, disk := SessionStep(w, s, act), ApplyEpochTransfer(s.head.record, act.a, act.at).0;
            Era(disk, next, act.a, epoch, adopted) && Linked(disk, next, epoch, adopted) && next.superseded == s.superseded
  {
    BoundaryTransferExactly(w.disk, act.recovery);
    StepKeepsTied(w, s, act);
  }

  lemma LoneStep(w: World, s: Session, act: Act, epoch: int, adopted: bool)
    requires SessionInv(w.first, act.a, s) && Era(w.disk, s, act.a, epoch, adopted) && Linked(w.disk, s, epoch, adopted)
    requires SessionEnabled(w, s, act) && !act.LandsTransfer?
    ensures var next := SessionStep(w, s, act);
            && (next.superseded <==> s.superseded || Concludes(act, epoch, adopted))
            && Era(DiskAfter(w.disk, s, act), next, act.a, epoch, adopted || act == AdoptsTransfer(act.a))
  {
    if act.LandsAffirm? || act.AffirmReturns? {
      LoneAffirms(w, s, act, epoch, adopted);
    } else if act.AffirmRefused? || act.RereadsRecord? {
      LoneRefusals(w, s, act, epoch, adopted);
    } else if act.DecidesAssert? || act.ReadsForAssert? || act.CannotVerify? || act.AppendSettles? {
      LoneAsserts(w, s, act, epoch, adopted);
    } else {
      LoneSpansAndStops(w, s, act, epoch, adopted);
    }
  }

  lemma LoneAffirms(w: World, s: Session, act: Act, epoch: int, adopted: bool)
    requires SessionInv(w.first, act.a, s) && Era(w.disk, s, act.a, epoch, adopted) && Linked(w.disk, s, epoch, adopted)
    requires SessionEnabled(w, s, act) && (act.LandsAffirm? || act.AffirmReturns?)
    ensures var next := SessionStep(w, s, act);
            next.superseded == s.superseded && Era(DiskAfter(w.disk, s, act), next, act.a, epoch, adopted)
  {
  }

  lemma LoneRefusals(w: World, s: Session, act: Act, epoch: int, adopted: bool)
    requires SessionInv(w.first, act.a, s) && Era(w.disk, s, act.a, epoch, adopted) && Linked(w.disk, s, epoch, adopted)
    requires SessionEnabled(w, s, act) && (act.AffirmRefused? || act.RereadsRecord?)
    ensures var next := SessionStep(w, s, act);
            && (next.superseded <==> s.superseded || Concludes(act, epoch, adopted))
            && Era(w.disk, next, act.a, epoch, adopted)
  {
  }

  lemma LoneAsserts(w: World, s: Session, act: Act, epoch: int, adopted: bool)
    requires SessionInv(w.first, act.a, s) && Era(w.disk, s, act.a, epoch, adopted) && Linked(w.disk, s, epoch, adopted)
    requires SessionEnabled(w, s, act)
    requires act.DecidesAssert? || act.ReadsForAssert? || act.CannotVerify? || act.AppendSettles?
    ensures var next := SessionStep(w, s, act);
            && (next.superseded <==> s.superseded || Concludes(act, epoch, adopted))
            && Era(w.disk, next, act.a, epoch, adopted)
  {
  }

  lemma LoneSpansAndStops(w: World, s: Session, act: Act, epoch: int, adopted: bool)
    requires SessionInv(w.first, act.a, s) && Era(w.disk, s, act.a, epoch, adopted) && Linked(w.disk, s, epoch, adopted)
    requires SessionEnabled(w, s, act) && !act.LandsTransfer? && !act.LandsAffirm? && !act.AffirmReturns? && !act.AffirmRefused?
    requires !act.RereadsRecord? && !act.DecidesAssert? && !act.ReadsForAssert? && !act.CannotVerify? && !act.AppendSettles?
    ensures var next := SessionStep(w, s, act);
            && next.superseded == s.superseded
            && Era(DiskAfter(w.disk, s, act), next, act.a, epoch, adopted || act == AdoptsTransfer(act.a))
  {
  }

  // Once behind, the session stays behind: it neither affirms nor transfers over a record it does not expect.
  lemma LoneLinks(w: World, s: Session, act: Act, epoch: int, adopted: bool)
    requires SessionInv(w.first, act.a, s) && Era(w.disk, s, act.a, epoch, adopted) && Linked(w.disk, s, epoch, adopted)
    requires SessionEnabled(w, s, act) && !act.LandsTransfer?
    ensures Linked(DiskAfter(w.disk, s, act), SessionStep(w, s, act), epoch, adopted || act == AdoptsTransfer(act.a))
  {
    if Behind(w.disk, s, epoch, adopted) {
      StaysBehind(w, s, act, epoch);
    } else if !act.LosesTransferEvent? {
      StepKeepsTied(w, s, act);
      TiedStaysAhead(w, s, act, epoch, adopted);
    }
  }

  lemma StaysBehind(w: World, s: Session, act: Act, epoch: int)
    requires SessionInv(w.first, act.a, s) && Era(w.disk, s, act.a, epoch, false) && Behind(w.disk, s, epoch, false)
    requires SessionEnabled(w, s, act) && !act.LandsTransfer? && !s.head.AffirmWritten?
    ensures var next := SessionStep(w, s, act);
            && !act.LandsAffirm? && !act.AdoptsTransfer? && DiskAfter(w.disk, s, act) == w.disk
            && !next.head.SpanWritten? && !next.head.AffirmWritten?
  {
  }

  lemma TiedStaysAhead(w: World, s: Session, act: Act, epoch: int, adopted: bool)
    requires Era(w.disk, s, act.a, epoch, adopted) && !Behind(w.disk, s, epoch, adopted) && Tied(w.disk, s)
    requires SessionEnabled(w, s, act) && !act.LandsTransfer? && !act.LosesTransferEvent?
    ensures DiskAfter(w.disk, s, act).epoch == w.disk.epoch
    ensures s.head.SpanWritten? && !act.AdoptsTransfer? ==> SessionStep(w, s, act).head.SpanWritten?
  {
  }

  lemma LoneElsewhere(w: World, act: Act, a: Id, epoch: int, adopted: bool)
    requires Inv(w) && Enabled(w, act) && Lone(w, a, epoch, adopted)
    requires act.a != a && Apply(w, act).disk == w.disk
    ensures Lone(Apply(w, act), a, epoch, adopted) && Apply(w, act).sessions[a] == w.sessions[a]
  {
  }

  lemma LoneAct(w: World, act: Act, a: Id, epoch: int, adopted: bool)
    requires Inv(w) && Enabled(w, act) && Lone(w, a, epoch, adopted) && (act.a == a || Apply(w, act).disk == w.disk)
    ensures Inv(Apply(w, act)) && Lone(Apply(w, act), a, epoch, adopted || act == AdoptsTransfer(a))
    ensures Apply(w, act).sessions[a].superseded <==>
              w.sessions[a].superseded || (act.a == a && Concludes(act, epoch, adopted))
  {
    StepKeeps(w, act);
    if act.a == a {
      LoneOwnStep(w, act, epoch, adopted);
    } else {
      LoneElsewhere(w, act, a, epoch, adopted);
    }
  }

  // Some comparison straddles the transfer, or the queue rereads the record after a mismatch.
  predicate ConcludesIn(acts: seq<Act>, a: Id, epoch: int, adopted: bool) {
    ComparesAcross(acts, a, epoch, adopted) || RereadsRecord(a, true) in acts
  }

  lemma ConcludesFirst(acts: seq<Act>, a: Id, epoch: int, adopted: bool)
    requires acts != []
    ensures ConcludesIn(acts, a, epoch, adopted) <==>
              || (acts[0].a == a && Concludes(acts[0], epoch, adopted))
              || ConcludesIn(acts[1..], a, epoch, adopted || acts[0] == AdoptsTransfer(a))
  {
    ComparesFirst(acts, a, epoch, adopted);
    assert acts == [acts[0]] + acts[1..] && acts[..0] == [];
  }

  // Over every run in which nobody else commits: the session concludes a loss exactly if some comparison of
  // its own straddles its own transfer, or its queue rereads the record after a mismatch, which takes a transfer
  // whose event could not be appended. Reads still waiting when the transfer commits count like any other.
  lemma {:induction false} LostAcrossExactly(w: World, acts: seq<Act>, a: Id, epoch: int, adopted: bool)
    requires Inv(w) && Legal(w, acts) && Undisturbed(w, acts, a) && Lone(w, a, epoch, adopted)
    ensures a in Run(w, acts).sessions
    ensures Run(w, acts).sessions[a].superseded <==> w.sessions[a].superseded || ConcludesIn(acts, a, epoch, adopted)
    decreases |acts|
  {
    if acts != [] {
      LoneAct(w, acts[0], a, epoch, adopted);
      ConcludesFirst(acts, a, epoch, adopted);
      LostAcrossExactly(Apply(w, acts[0]), acts[1..], a, epoch, adopted || acts[0] == AdoptsTransfer(a));
    }
  }

  // And a mismatch does take that: as long as every transfer's event is appended, the queue rereads nothing.
  lemma QueueRereadsOnlyBehind(w: World, acts: seq<Act>, a: Id)
    requires Inv(w) && Legal(w, acts) && Undisturbed(w, acts, a) && a in w.sessions && Tied(w.disk, w.sessions[a])
    requires RereadsRecord(a, true) in acts
    ensures LosesTransferEvent(a) in acts
  {
    if LosesTransferEvent(a) !in acts {
      var j :| 0 <= j < |acts| && acts[j] == RereadsRecord(a, true);
      UpTo(w, acts, j, a);
      NoFalseLoss(w, acts[..j], a);
    }
  }

  // A run up to one of its steps is a run, and that step is possible at its end.
  lemma {:induction false} UpTo(w: World, acts: seq<Act>, j: nat, a: Id)
    requires Legal(w, acts) && Undisturbed(w, acts, a) && j < |acts|
    ensures Legal(w, acts[..j]) && Undisturbed(w, acts[..j], a) && Enabled(Run(w, acts[..j]), acts[j])
    decreases j
  {
    if j > 0 {
      UpTo(Apply(w, acts[0]), acts[1..], j - 1, a);
      assert acts[1..][..j - 1] == acts[..j][1..];
    }
  }

  lemma {:induction false} StaysNamed(w: World, acts: seq<Act>, a: Id)
    requires Inv(w) && Legal(w, acts) && Undisturbed(w, acts, a) && a in w.sessions && w.disk.processId == a
    ensures a in Run(w, acts).sessions && Run(w, acts).disk.processId == a
    decreases |acts|
  {
    if acts != [] {
      StepKeeps(w, acts[0]);
      if acts[0].a == a && !ResumeAct(acts[0]) {
        SessionActKeeps(w, acts[0]);
      }
      StaysNamed(Apply(w, acts[0]), acts[1..], a);
    }
  }

  // In particular, without a foreign commit such a session is never superseded and always holds.
  lemma NeverLostAlone(w: World, acts: seq<Act>, a: Id)
    requires Inv(w) && LossesTrue(w) && Legal(w, acts) && Undisturbed(w, acts, a)
    requires a in w.sessions && w.disk.processId == a
    ensures var later := Run(w, acts);
            a in later.sessions && !later.sessions[a].superseded && Holds(later, a)
  {
    LossIsTrue(w, acts);
    StaysNamed(w, acts, a);
  }

  function Alone(record: OwnerRecord, s: Session): World {
    World(record, None, None, map[record.processId := s], map[], record.processId)
  }

  // A run of one session and nobody else's commits, at the end of which it takes its own record for lost.
  predicate FalselyLoses(record: OwnerRecord, a: Id, acts: seq<Act>) {
    && record.processId == a
    && var w := Alone(record, NewSession(record));
    && Legal(w, acts) && Undisturbed(w, acts, a)
    && a in Run(w, acts).sessions && Run(w, acts).sessions[a].superseded
  }

  // So a false loss needs a record already marked lost when the session starts, and then it can happen.
  lemma FalseLossExactly(record: OwnerRecord, a: Id)
    requires record.processId == a && record.supersededBy == None
    ensures (exists acts :: FalselyLoses(record, a, acts)) <==> record.status == Lost
  {
    var w := Alone(record, NewSession(record));
    if record.status == Lost {
      ReadWithinWindow(record, a);
    } else {
      FirmStartIsTrue(w);
      forall acts | FalselyLoses(record, a, acts)
        ensures false
      {
        LossIsTrue(w, acts);
        StaysNamed(w, acts, a);
      }
    }
  }

  // ---- the three ways it happens ----

  function Transfers(a: Id): seq<Act> {
    [Schedules(a, SpanOp), ReachesHead(a, 0)] + [ReadsInSpan(a), LandsTransfer(a, Some(ExecutionRecovery(Same, Some([]))), 0)]
  }

  // Read after the transfer committed, compared before it was adopted.
  function WithinWindow(record: OwnerRecord, a: Id): seq<Act> {
    Transfers(a) + [ReadsForAssert(a), DecidesAssert(a, ApplyEpochTransfer(record, a, 0).0)]
  }

  // Read before the transfer committed, compared after it was adopted.
  function ReadBefore(record: OwnerRecord, a: Id): seq<Act> {
    [ReadsForAssert(a)] + (Transfers(a) + [AdoptsTransfer(a), DecidesAssert(a, record)])
  }

  // The event of the transfer cannot be appended, so it is never adopted; the next affirm finds another epoch.
  function LeftUnadopted(a: Id): seq<Act> {
    Transfers(a) + ([LosesTransferEvent(a), Schedules(a, AffirmOp)]
                    + ([ReachesHead(a, 0), AffirmRefused(a, Mismatch)] + [RereadsRecord(a, true)]))
  }

  function Transferred(record: OwnerRecord, a: Id, s: Session): World {
    var (next, transfer, reconciliation) := Adoption(record, a, 0);
    World(next, Some(transfer), Some(reconciliation), map[a := s.(head := SpanWritten(next))], map[], record.processId)
  }

  lemma SpanOpens(record: OwnerRecord, a: Id, s: Session)
    requires record.processId == a && s.head.Idle? && s.pending == [] && !s.stopped
    ensures var acts := [Schedules(a, SpanOp), ReachesHead(a, 0)];
            Legal(Alone(record, s), acts) && Run(Alone(record, s), acts) == Alone(record, s.(head := SpanOpen))
  {
    var w := Alone(record, s);
    var w1 := Apply(w, Schedules(a, SpanOp));
    assert s.pending + [SpanOp] == [SpanOp] && [SpanOp][1..] == [];
    assert w1 == Alone(record, s.(pending := [SpanOp]));
    assert Apply(w1, ReachesHead(a, 0)) == Alone(record, s.(head := SpanOpen));
    TwoSteps(w, Schedules(a, SpanOp), ReachesHead(a, 0));
  }

  lemma SpanTransfers(record: OwnerRecord, a: Id, s: Session)
    requires record.processId == a && record.status == Lost && record.supersededBy == None
    ensures var w := Alone(record, s.(head := SpanOpen));
            var acts := [ReadsInSpan(a), LandsTransfer(a, Some(ExecutionRecovery(Same, Some([]))), 0)];
            Legal(w, acts) && Run(w, acts) == Transferred(record, a, s)
  {
    var w := Alone(record, s.(head := SpanOpen));
    assert Apply(w, ReadsInSpan(a)) == Alone(record, s.(head := SpanRead(record)));
    LostIsTransferred(record, a, s);
    TwoSteps(w, ReadsInSpan(a), LandsTransfer(a, Some(ExecutionRecovery(Same, Some([]))), 0));
  }

  lemma LostIsTransferred(record: OwnerRecord, a: Id, s: Session)
    requires record.processId == a && record.status == Lost && record.supersededBy == None
    ensures var w := Alone(record, s.(head := SpanRead(record)));
            var act := LandsTransfer(a, Some(ExecutionRecovery(Same, Some([]))), 0);
            Enabled(w, act) && Apply(w, act) == Transferred(record, a, s)
  {
    BoundaryTransferExactly(record, Some(ExecutionRecovery(Same, Some([]))));
  }

  lemma TransfersRuns(record: OwnerRecord, a: Id, s: Session)
    requires record.processId == a && record.status == Lost && record.supersededBy == None
    requires s.head.Idle? && s.pending == [] && !s.stopped
    ensures Legal(Alone(record, s), Transfers(a))
    ensures Run(Alone(record, s), Transfers(a)) == Transferred(record, a, s)
  {
    SpanOpens(record, a, s);
    SpanTransfers(record, a, s);
    RunSplit(Alone(record, s), [Schedules(a, SpanOp), ReachesHead(a, 0)],
             [ReadsInSpan(a), LandsTransfer(a, Some(ExecutionRecovery(Same, Some([]))), 0)]);
  }

  lemma AloneIsLone(record: OwnerRecord)
    requires record.supersededBy == None
    ensures var w := Alone(record, NewSession(record));
            Inv(w) && Lone(w, record.processId, record.epoch, false)
  {
    InitialInv(Alone(record, NewSession(record)));
  }

  // A legal run of its own acts alone loses exactly if it compares across the transfer.
  lemma LosesByComparing(record: OwnerRecord, a: Id, acts: seq<Act>, j: nat)
    requires record.processId == a && record.supersededBy == None && Legal(Alone(record, NewSession(record)), acts)
    requires forall i :: 0 <= i < |acts| ==> acts[i].a == a
    requires j < |acts| && Across(acts, j, a, record.epoch, false)
    ensures FalselyLoses(record, a, acts)
  {
    var w := Alone(record, NewSession(record));
    OwnActsUndisturbed(w, acts, a);
    AloneIsLone(record);
    LostAcrossExactly(w, acts, a, record.epoch, false);
  }

  lemma ReadWithinWindow(record: OwnerRecord, a: Id)
    requires record.processId == a && record.status == Lost && record.supersededBy == None
    ensures FalselyLoses(record, a, WithinWindow(record, a))
  {
    var acts := WithinWindow(record, a);
    WindowRuns(record, a);
    assert acts[5] == DecidesAssert(a, ApplyEpochTransfer(record, a, 0).0);
    LosesByComparing(record, a, acts, 5);
  }

  lemma WindowRuns(record: OwnerRecord, a: Id)
    requires record.processId == a && record.status == Lost && record.supersededBy == None
    ensures Legal(Alone(record, NewSession(record)), WithinWindow(record, a))
  {
    var w, w1 := Alone(record, NewSession(record)), Transferred(record, a, NewSession(record));
    var next := ApplyEpochTransfer(record, a, 0).0;
    TransfersRuns(record, a, NewSession(record));
    TwoSteps(w1, ReadsForAssert(a), DecidesAssert(a, next));
    RunSplit(w, Transfers(a), [ReadsForAssert(a), DecidesAssert(a, next)]);
  }

  lemma ReadThenTransferred(record: OwnerRecord, a: Id, s: Session)
    requires record.processId == a && record.status == Lost && record.supersededBy == None
    requires s.head.Idle? && s.pending == [] && !s.stopped && record in s.seen
    ensures Legal(Alone(record, s), Transfers(a) + [AdoptsTransfer(a), DecidesAssert(a, record)])
  {
    TransfersRuns(record, a, s);
    TwoSteps(Transferred(record, a, s), AdoptsTransfer(a), DecidesAssert(a, record));
    RunSplit(Alone(record, s), Transfers(a), [AdoptsTransfer(a), DecidesAssert(a, record)]);
  }

  lemma ReadBeforeRuns(record: OwnerRecord, a: Id)
    requires record.processId == a && record.status == Lost && record.supersededBy == None
    ensures Legal(Alone(record, NewSession(record)), ReadBefore(record, a))
  {
    var s := NewSession(record).(seen := {record});
    assert {} + {record} == {record};
    assert Apply(Alone(record, NewSession(record)), ReadsForAssert(a)) == Alone(record, s);
    ReadThenTransferred(record, a, s);
    assert ReadBefore(record, a)[1..] == Transfers(a) + [AdoptsTransfer(a), DecidesAssert(a, record)];
  }

  lemma ReadBeforeTransfer(record: OwnerRecord, a: Id)
    requires record.processId == a && record.status == Lost && record.supersededBy == None
    ensures FalselyLoses(record, a, ReadBefore(record, a))
  {
    var acts := ReadBefore(record, a);
    ReadBeforeRuns(record, a);
    assert acts[6] == DecidesAssert(a, record) && acts[..6][5] == AdoptsTransfer(a);
    LosesByComparing(record, a, acts, 6);
  }

  lemma RefusedAffirm(w: World, a: Id)
    requires a in w.sessions && w.sessions[a].head.Idle? && w.sessions[a].pending == [AffirmOp]
    requires !w.sessions[a].stopped && !w.sessions[a].superseded && w.sessions[a].lastAffirmAt == None
    requires w.disk.epoch != w.sessions[a].expected.epoch
    ensures var acts := [ReachesHead(a, 0), AffirmRefused(a, Mismatch)] + [RereadsRecord(a, true)];
            Legal(w, acts) && a in Run(w, acts).sessions && Run(w, acts).sessions[a].signalled
  {
    var z := RereadsRecord(a, true);
    RefusedOnce(w, a);
    var w2 := Run(w, [ReachesHead(a, 0), AffirmRefused(a, Mismatch)]);
    assert [z][1..] == [];
    Unfold(w2, [z]);
    RunSplit(w, [ReachesHead(a, 0), AffirmRefused(a, Mismatch)], [z]);
  }

  lemma RefusedOnce(w: World, a: Id)
    requires a in w.sessions && w.sessions[a].head.Idle? && w.sessions[a].pending == [AffirmOp]
    requires !w.sessions[a].stopped && !w.sessions[a].superseded && w.sessions[a].lastAffirmAt == None
    requires w.disk.epoch != w.sessions[a].expected.epoch
    ensures var acts := [ReachesHead(a, 0), AffirmRefused(a, Mismatch)];
            && Legal(w, acts) && Run(w, acts).disk == w.disk && a in Run(w, acts).sessions
            && var s := Run(w, acts).sessions[a];
               s.head.Rereading? && s.expected == w.sessions[a].expected
  {
    TwoSteps(w, ReachesHead(a, 0), AffirmRefused(a, Mismatch));
  }

  lemma UnadoptedRuns(record: OwnerRecord, a: Id)
    requires record.processId == a && record.status == Lost && record.supersededBy == None
    ensures var w := Alone(record, NewSession(record));
            && Legal(w, LeftUnadopted(a))
            && a in Run(w, LeftUnadopted(a)).sessions && Run(w, LeftUnadopted(a)).sessions[a].signalled
  {
    var w := Alone(record, NewSession(record));
    var w1 := Transferred(record, a, NewSession(record));
    var lost, scheduled := LosesTransferEvent(a), Schedules(a, AffirmOp);
    var rest := [ReachesHead(a, 0), AffirmRefused(a, Mismatch)] + [RereadsRecord(a, true)];
    TransfersRuns(record, a, NewSession(record));
    TwoSteps(w1, lost, scheduled);
    assert NewSession(record).pending + [AffirmOp] == [AffirmOp];
    RefusedAffirm(Run(w1, [lost, scheduled]), a);
    RunSplit(w1, [lost, scheduled], rest);
    RunSplit(w, Transfers(a), [lost, scheduled] + rest);
  }

  // In this way the queue itself concludes and signals, and no comparison of assertHeld is part of it.
  lemma TransferEventLost(record: OwnerRecord, a: Id)
    requires record.processId == a && record.status == Lost && record.supersededBy == None
    ensures FalselyLoses(record, a, LeftUnadopted(a)) && !ComparesAcross(LeftUnadopted(a), a, record.epoch, false)
    ensures Run(Alone(record, NewSession(record)), LeftUnadopted(a)).sessions[a].signalled
  {
    var w, acts := Alone(record, NewSession(record)), LeftUnadopted(a);
    UnadoptedRuns(record, a);
    OwnActsUndisturbed(w, acts, a);
    AloneIsLone(record);
    assert acts[8] == RereadsRecord(a, true);
    LostAcrossExactly(w, acts, a, record.epoch, false);
  }

  lemma {:induction false} OwnActsUndisturbed(w: World, acts: seq<Act>, a: Id)
    requires Legal(w, acts) && forall i :: 0 <= i < |acts| ==> acts[i].a == a
    ensures Undisturbed(w, acts, a)
    decreases |acts|
  {
    if acts != [] {
      OwnActsUndisturbed(Apply(w, acts[0]), acts[1..], a);
    }
  }
}
