/** One session's lease heartbeat. The original is a closure whose functions await file I/O; here each stretch
    of code between two awaits is one function on the closure's state, and one method of the class below. */
module LeaseHeartbeat {
  import opened Basics
  import opened Ownership

  const AFFIRM_THROTTLE_MS := 10_000

  datatype QueueOp = AffirmOp | SpanOp

  // Where the operation at the head of the queue is suspended. `Written` heads have had their
  // compare-and-swap land on disk without this process knowing it yet.
  datatype Head =
    | Idle
    | Affirming(base: OwnerRecord, at: int)
    | AffirmWritten(next: OwnerRecord)
    | Rereading
    | SpanOpen
    | SpanRead(record: OwnerRecord)
    | SpanWritten(next: OwnerRecord)

  datatype StoreFailure = Mismatch | LockUnattributable | LockUndetermined | Transient

  datatype LeaseEvent = LeaseLost | LeaseUnverifiable | UnattributableLock | UndeterminedLock

  // The lines a session sets out to append to the event log, those whose append is still awaited, and those that
  // landed. A rejected append is swallowed: it must not cost the stop signal or the refusal.
  datatype Appends = Appends(attempted: seq<LeaseEvent>, inFlight: multiset<LeaseEvent>, landed: seq<LeaseEvent>)

  const NO_APPENDS := Appends([], multiset{}, [])

  function Attempt(log: Appends, event: LeaseEvent): Appends {
    Appends(log.attempted + [event], log.inFlight + multiset{event}, log.landed)
  }

  function Settle(log: Appends, event: LeaseEvent, lands: bool): Appends {
    Appends(log.attempted, log.inFlight - multiset{event}, if lands then log.landed + [event] else log.landed)
  }

  datatype Session = Session(
    expected: OwnerRecord,
    lastAffirmAt: Option<int>,
    stopped: bool,
    superseded: bool,
    signalled: bool,
    released: bool,
    pending: seq<QueueOp>,
    head: Head,
    seen: set<OwnerRecord>,
    events: Appends)

  function NewSession(record: OwnerRecord): Session {
    Session(record, None, false, false, false, false, [], Idle, {}, NO_APPENDS)
  }

  // The one criterion for supersession.
  predicate NamesSomeoneElse(persisted: OwnerRecord, expected: OwnerRecord) {
    || persisted.epoch != expected.epoch
    || persisted.supersededBy != None
    || persisted.processId != expected.processId
  }

  function Schedule(s: Session, op: QueueOp): Session {
    s.(pending := s.pending + [op])
  }

  predicate Throttled(s: Session, now: int) {
    s.lastAffirmAt.Some? && now - s.lastAffirmAt.value < AFFIRM_THROTTLE_MS
  }

  // The queued operation reaches the head: an affirm may decline, an exclusive span may refuse.
  function StartHead(s: Session, now: int): Session
    requires s.head.Idle? && s.pending != []
  {
    var popped := s.(pending := s.pending[1..]);
    match s.pending[0]
    case AffirmOp =>
      if s.stopped || s.superseded || Throttled(s, now) then popped
      else popped.(head := Affirming(s.expected, now))
    case SpanOp =>
      if s.stopped then popped else popped.(head := SpanOpen)
  }

  function RecordOnce(s: Session, event: LeaseEvent): Session {
    if event in s.events.attempted then s else s.(events := Attempt(s.events, event))
  }

  function ConcludeSuperseded(s: Session): Session {
    if s.superseded then s else s.(superseded := true, events := Attempt(s.events, LeaseLost))
  }

  function AffirmReturned(s: Session, now: int): Session
    requires s.head.AffirmWritten?
  {
    s.(expected := s.head.next, lastAffirmAt := Some(now), head := Idle)
  }

  function AffirmFailed(s: Session, failure: StoreFailure): Session
    requires s.head.Affirming?
  {
    match failure
    case Mismatch => s.(head := Rereading)
    case LockUnattributable => RecordOnce(s, UnattributableLock).(head := Idle)
    case LockUndetermined => RecordOnce(s, UndeterminedLock).(head := Idle)
    case Transient => s.(head := Idle)
  }

  // After a mismatch: only a readable record that names someone else is proof.
  function RereadReturned(s: Session, persisted: Option<OwnerRecord>): Session
    requires s.head.Rereading?
  {
    if persisted == None || !NamesSomeoneElse(persisted.value, s.expected) then s.(head := Idle)
    else ConcludeSuperseded(s).(signalled := true, head := Idle)
  }

  function Adopt(s: Session, record: OwnerRecord): Session {
    if s.superseded then s else s.(expected := record)
  }

  function SpanAdopted(s: Session): Session
    requires s.head.SpanWritten?
  {
    Adopt(s, s.head.next).(head := Idle)
  }

  function AssertRead(s: Session, persisted: OwnerRecord): Session {
    s.(seen := s.seen + {persisted})
  }

  // assertHeld compares what it read, outside the queue. It passes iff the result is `true`.
  function AssertDecided(s: Session, persisted: OwnerRecord): (Session, bool)
    requires persisted in s.seen
  {
    var done := s.(seen := s.seen - {persisted});
    if NamesSomeoneElse(persisted, s.expected) then (ConcludeSuperseded(done), false) else (done, true)
  }

  function AssertUnverifiable(s: Session): Session {
    s.(events := Attempt(s.events, LeaseUnverifiable))
  }

  function AppendSettled(s: Session, event: LeaseEvent, lands: bool): Session {
    s.(events := Settle(s.events, event, lands))
  }

  // The span's transfer has committed, but the event it owes could not be appended, and the error passes the
  // adoption by.
  function SpanUnadopted(s: Session): Session {
    s.(head := Idle)
  }

  function Stop(s: Session): Session {
    s.(stopped := true)
  }

  // stop() waits for the queue before it releases.
  predicate MayRelease(s: Session) {
    s.stopped && !s.released && s.head.Idle?
  }

  function ReleaseReturned(s: Session, failure: Option<StoreFailure>): Session
    requires MayRelease(s)
  {
    var done := s.(released := true);
    match failure
    case Some(LockUnattributable) => RecordOnce(done, UnattributableLock)
    case Some(LockUndetermined) => RecordOnce(done, UndeterminedLock)
    case _ => done
  }

  function Count(events: seq<LeaseEvent>, event: LeaseEvent): nat {
    if events == [] then 0 else (if events[0] == event then 1 else 0) + Count(events[1..], event)
  }

  lemma {:induction false} CountAppend(events: seq<LeaseEvent>, last: LeaseEvent, event: LeaseEvent)
    ensures Count(events + [last], event) == Count(events, event) + (if last == event then 1 else 0)
    ensures Count(events, event) > 0 <==> event in events
  {
    if events == [] {
      assert events + [last] == [last];
    } else {
      assert (events + [last])[1..] == events[1..] + [last];
      CountAppend(events[1..], last, event);
    }
  }

  // Nothing lands that was not attempted, nor more often.
  predicate Sound(log: Appends) {
    forall event: LeaseEvent :: Count(log.landed, event) + log.inFlight[event] <= Count(log.attempted, event)
  }

  // Recording a loss is attempted exactly when it is concluded, and each lock complaint once at most.
  predicate EventsLatched(s: Session) {
    && Sound(s.events)
    && Count(s.events.attempted, LeaseLost) == (if s.superseded then 1 else 0)
    && Count(s.events.attempted, UnattributableLock) <= 1
    && Count(s.events.attempted, UndeterminedLock) <= 1
    && (s.signalled ==> s.superseded)
  }

  lemma AttemptCounts(log: Appends, event: LeaseEvent)
    requires Sound(log)
    ensures Sound(Attempt(log, event))
    ensures forall other: LeaseEvent ::
              Count(Attempt(log, event).attempted, other) == Count(log.attempted, other) + (if event == other then 1 else 0)
    ensures forall other: LeaseEvent :: Count(log.attempted, other) > 0 <==> other in log.attempted
  {
    forall other: LeaseEvent
      ensures Count(log.attempted + [event], other) == Count(log.attempted, other) + (if event == other then 1 else 0)
      ensures Count(log.attempted, other) > 0 <==> other in log.attempted
    {
      CountAppend(log.attempted, event, other);
    }
  }

  lemma SettleSound(log: Appends, event: LeaseEvent, lands: bool)
    requires Sound(log) && event in log.inFlight
    ensures Sound(Settle(log, event, lands))
  {
    forall other: LeaseEvent
      ensures Count(log.landed + [event], other) == Count(log.landed, other) + (if event == other then 1 else 0)
    {
      CountAppend(log.landed, event, other);
    }
  }

  lemma LatchRecordOnce(s: Session, event: LeaseEvent)
    requires EventsLatched(s) && event in {UnattributableLock, UndeterminedLock}
    ensures EventsLatched(RecordOnce(s, event))
  {
    AttemptCounts(s.events, event);
  }

  lemma LatchConclude(s: Session)
    requires EventsLatched(s)
    ensures EventsLatched(ConcludeSuperseded(s)) && ConcludeSuperseded(s).superseded
  {
    AttemptCounts(s.events, LeaseLost);
  }

  lemma LatchUnverifiable(s: Session)
    requires EventsLatched(s)
    ensures EventsLatched(AssertUnverifiable(s))
  {
    AttemptCounts(s.events, LeaseUnverifiable);
  }

  lemma LatchSettled(s: Session, event: LeaseEvent, lands: bool)
    requires EventsLatched(s) && event in s.events.inFlight
    ensures EventsLatched(AppendSettled(s, event, lands))
  {
    SettleSound(s.events, event, lands);
  }

  // So at most one line says the lease was lost, and none unless that was concluded.
  lemma LostAtMostOnce(s: Session)
    requires EventsLatched(s)
    ensures Count(s.events.attempted, LeaseLost) == (if s.superseded then 1 else 0)
    ensures Count(s.events.landed, LeaseLost) <= Count(s.events.attempted, LeaseLost)
  {
  }

  lemma SameEvents(s: Session, next: Session)
    requires EventsLatched(s)
    requires next.events == s.events && next.superseded == s.superseded && next.signalled == s.signalled
    ensures EventsLatched(next)
  {
  }

  lemma Pops(done: seq<QueueOp>, pending: seq<QueueOp>)
    requires pending != []
    ensures done + [pending[0]] + pending[1..] == done + pending
  {
  }

  // Two records that differ at most in when they were affirmed.
  predicate SameClaim(a: OwnerRecord, b: OwnerRecord) {
    a.(lastAffirmedAt := b.lastAffirmedAt, leaseAffirmedAt := b.leaseAffirmedAt) == b
  }

  /** The closure itself. `head`, `pending` and `seen` make its suspended continuations visible; every other
      field is a variable of the original. The ghost fields are its history: what was scheduled, what came to
      the head of the queue, what of that went on rather than declined, and which transfers were adopted. */
  class Heartbeat {
    const me: Id
    var expected: OwnerRecord
    var lastAffirmAt: Option<int>
    var stopped: bool
    var superseded: bool
    var signalled: bool
    var released: bool
    var unattributableLockRecorded: bool
    var livenessUndeterminedLockRecorded: bool
    var pending: seq<QueueOp>
    var head: Head
    var seen: set<OwnerRecord>
    var events: Appends
    ghost const start: OwnerRecord
    ghost var scheduled: seq<QueueOp>
    ghost var reached: seq<QueueOp>
    ghost var begun: seq<QueueOp>
    ghost var adopted: seq<OwnerRecord>

    function View(): Session
      reads this
    {
      Session(expected, lastAffirmAt, stopped, superseded, signalled, released, pending, head, seen, events)
    }

    // The latches agree with the event stream they guard; the queue is first in, first out, and loses nothing;
    // and what is expected is the last transfer adopted, affirmed any number of times since.
    ghost predicate Valid()
      reads this
    {
      && EventsLatched(View())
      && (unattributableLockRecorded <==> UnattributableLock in events.attempted)
      && (livenessUndeterminedLockRecorded <==> UndeterminedLock in events.attempted)
      && reached + pending == scheduled
      && SameClaim(expected, Anchor()) && start.processId == me && (forall r :: r in adopted ==> r.processId == me)
      && HeadSound()
    }

    ghost function Anchor(): OwnerRecord
      reads this`adopted
    {
      if adopted == [] then start else adopted[|adopted| - 1]
    }

    ghost predicate HeadSound()
      reads this`head, this`expected
    {
      match head
      case Affirming(base, _) => base == expected
      case AffirmWritten(next) => SameClaim(next, expected)
      case SpanWritten(next) => next.processId == me
      case _ => true
    }

    // What no call ever takes back. After a stop nothing begins, and an idle queue stays idle. Once superseded
    // it neither affirms nor adopts, though a span may still run and be refused.
    twostate predicate Onward()
      reads this
    {
      && old(scheduled) <= scheduled && old(reached) <= reached && old(begun) <= begun
      && old(adopted) <= adopted && old(events).attempted <= events.attempted && old(events).landed <= events.landed
      && (old(stopped) ==> stopped && begun == old(begun) && (old(head).Idle? ==> head.Idle?))
      && (old(superseded) ==>
            && superseded && adopted == old(adopted)
            && forall i :: |old(begun)| <= i < |begun| ==> begun[i] == SpanOp)
    }

    constructor (record: OwnerRecord)
      ensures Valid() && View() == NewSession(record) && me == record.processId && start == record
      ensures scheduled == [] && reached == [] && begun == [] && adopted == []
    {
      me, start, expected, lastAffirmAt := record.processId, record, record, None;
      stopped, superseded, signalled, released := false, false, false, false;
      unattributableLockRecorded, livenessUndeterminedLockRecorded := false, false;
      pending, head, seen, events := [], Idle, {}, NO_APPENDS;
      scheduled, reached, begun, adopted := [], [], [], [];
    }

    // affirmNow and runExclusive.
    method Join(op: QueueOp)
      requires Valid()
      modifies this`pending, this`scheduled
      ensures Valid() && Onward() && View() == Schedule(old(View()), op)
      ensures scheduled == old(scheduled) + [op]
    {
      pending, scheduled := pending + [op], scheduled + [op];
      assert reached + pending == scheduled;
    }

    method Pop() returns (op: QueueOp)
      requires Valid() && head.Idle? && pending != []
      modifies this`pending, this`reached
      ensures Valid() && Onward() && op == old(pending)[0] && View() == old(View()).(pending := old(pending)[1..])
      ensures reached == old(reached) + [op]
    {
      op := pending[0];
      Pops(reached, pending);
      pending, reached := pending[1..], reached + [op];
    }

    method ReachHead(now: int)
      requires Valid() && head.Idle? && pending != []
      modifies this`pending, this`head, this`reached, this`begun
      ensures Valid() && Onward() && View() == StartHead(old(View()), now)
      ensures reached == old(reached) + [old(pending)[0]]
      ensures begun == old(begun) + if head.Idle? then [] else [old(pending)[0]]
    {
      var op := Pop();
      if op == SpanOp && !stopped {
        head, begun := SpanOpen, begun + [op];
      } else if op == AffirmOp && !stopped && !superseded
                && !(lastAffirmAt.Some? && now - lastAffirmAt.value < AFFIRM_THROTTLE_MS) {
        head, begun := Affirming(expected, now), begun + [op];
      }
    }

    // The store has committed the affirm; this process does not know yet.
    method AffirmLands()
      requires Valid() && head.Affirming?
      modifies this`head
      ensures Valid() && Onward() && View() == old(View()).(head := AffirmWritten(Affirmed(old(head).base, old(head).at)))
    {
      head := AffirmWritten(Affirmed(head.base, head.at));
    }

    method AffirmSucceeds(now: int)
      requires Valid() && head.AffirmWritten?
      modifies this`expected, this`lastAffirmAt, this`head
      ensures Valid() && Onward() && View() == AffirmReturned(old(View()), now)
    {
      expected := head.next;
      lastAffirmAt := Some(now);
      head := Idle;
    }

    method RecordUnattributable()
      requires Valid()
      modifies this`events, this`unattributableLockRecorded
      ensures Valid() && Onward() && View() == RecordOnce(old(View()), UnattributableLock)
    {
      LatchRecordOnce(View(), UnattributableLock);
      if !unattributableLockRecorded {
        unattributableLockRecorded := true;
        events := Attempt(events, UnattributableLock);
      }
    }

    method RecordUndetermined()
      requires Valid()
      modifies this`events, this`livenessUndeterminedLockRecorded
      ensures Valid() && Onward() && View() == RecordOnce(old(View()), UndeterminedLock)
    {
      LatchRecordOnce(View(), UndeterminedLock);
      if !livenessUndeterminedLockRecorded {
        livenessUndeterminedLockRecorded := true;
        events := Attempt(events, UndeterminedLock);
      }
    }

    method RecordLock(failure: StoreFailure)
      requires Valid()
      modifies this`events, this`unattributableLockRecorded, this`livenessUndeterminedLockRecorded
      ensures Valid() && Onward()
      ensures View() == match failure
                        case LockUnattributable => RecordOnce(old(View()), UnattributableLock)
                        case LockUndetermined => RecordOnce(old(View()), UndeterminedLock)
                        case _ => old(View())
    {
      if failure == LockUnattributable {
        RecordUnattributable();
      } else if failure == LockUndetermined {
        RecordUndetermined();
      }
    }

    method AffirmFails(failure: StoreFailure)
      requires Valid() && head.Affirming?
      modifies this
      ensures Valid() && Onward() && View() == AffirmFailed(old(View()), failure)
    {
      RecordLock(failure);
      head := if failure == Mismatch then Rereading else Idle;
    }

    method ConcludeSupersededOnce()
      requires Valid()
      modifies this`superseded, this`events
      ensures Valid() && Onward() && View() == ConcludeSuperseded(old(View()))
    {
      LatchConclude(View());
      if superseded {
        return;
      }
      superseded := true;
      events := Attempt(events, LeaseLost);
    }

    // The heartbeat's own conclusion also signals, whoever concluded first.
    method ConcludeLeaseLost()
      requires Valid()
      modifies this`superseded, this`events, this`signalled
      ensures Valid() && Onward() && View() == ConcludeSuperseded(old(View())).(signalled := true)
    {
      ConcludeSupersededOnce();
      signalled := true;
    }

    method Rereads(persisted: Option<OwnerRecord>)
      requires Valid() && head.Rereading?
      modifies this
      ensures Valid() && Onward() && View() == RereadReturned(old(View()), persisted)
    {
      if persisted.Some? && NamesSomeoneElse(persisted.value, expected) {
        ConcludeLeaseLost();
      }
      head := Idle;
    }

    // What the caller's span does while it holds the queue: read, commit a transfer to itself, or give up.
    method SpanReads(record: OwnerRecord)
      requires Valid() && head.SpanOpen?
      modifies this`head
      ensures Valid() && Onward() && View() == old(View()).(head := SpanRead(record))
    {
      head := SpanRead(record);
    }

    method SpanLands(next: OwnerRecord)
      requires Valid() && head.SpanRead? && next.processId == me
      modifies this`head
      ensures Valid() && Onward() && View() == old(View()).(head := SpanWritten(next))
    {
      head := SpanWritten(next);
    }

    method SpanEnds()
      requires Valid() && (head.SpanOpen? || head.SpanRead?)
      modifies this`head
      ensures Valid() && Onward() && View() == old(View()).(head := Idle)
    {
      head := Idle;
    }

    method AdoptTransfer()
      requires Valid() && head.SpanWritten?
      modifies this`expected, this`head, this`adopted
      ensures Valid() && Onward() && View() == SpanAdopted(old(View()))
      ensures adopted == old(adopted) + if superseded then [] else [expected]
    {
      if !superseded {
        expected, adopted := head.next, adopted + [head.next];
      }
      head := Idle;
    }

    method SpanThrows()
      requires Valid() && head.SpanWritten?
      modifies this`head
      ensures Valid() && Onward() && View() == SpanUnadopted(old(View()))
    {
      head := Idle;
    }

    // An awaited append ends, one way or the other.
    method AppendEnds(event: LeaseEvent, lands: bool)
      requires Valid() && event in events.inFlight
      modifies this`events
      ensures Valid() && Onward() && View() == AppendSettled(old(View()), event, lands)
    {
      LatchSettled(View(), event, lands);
      events := Settle(events, event, lands);
    }

    method ReadForAssert(persisted: OwnerRecord)
      requires Valid()
      modifies this`seen
      ensures Valid() && Onward() && View() == AssertRead(old(View()), persisted)
    {
      seen := seen + {persisted};
    }

    method AssertHeld(persisted: OwnerRecord) returns (held: bool)
      requires Valid() && persisted in seen
      modifies this
      ensures Valid() && Onward() && (View(), held) == AssertDecided(old(View()), persisted)
    {
      seen := seen - {persisted};
      held := !NamesSomeoneElse(persisted, expected);
      if !held {
        ConcludeSupersededOnce();
      }
    }

    method AssertHeldUnreadable()
      requires Valid()
      modifies this`events
      ensures Valid() && Onward() && View() == AssertUnverifiable(old(View()))
    {
      LatchUnverifiable(View());
      events := Attempt(events, LeaseUnverifiable);
    }

    method StopHeartbeat()
      requires Valid()
      modifies this`stopped
      ensures Valid() && Onward() && View() == Stop(old(View()))
    {
      stopped := true;
    }

    method ReleaseSettles(failure: Option<StoreFailure>)
      requires Valid() && MayRelease(View())
      modifies this
      ensures Valid() && Onward() && View() == ReleaseReturned(old(View()), failure)
    {
      released := true;
      if failure.Some? {
        RecordLock(failure.value);
      }
    }

    // Any sequence of calls, from any callers, with any answers of the store in between. The operations reach
    // the head in the order they were scheduled; the expectation stays this process's, and moves off its epoch
    // only by adopting; after a stop an idle queue never begins anything again; a superseded heartbeat begins
    // no affirm and adopts nothing; recording a loss is attempted exactly once if it is concluded, and never
    // otherwise, and is on record at most once, whatever appends are swallowed.
    method Live(calls: nat)
      requires Valid()
      modifies this
      ensures Valid() && Onward()
      ensures reached <= scheduled && expected.processId == me
      ensures adopted == old(adopted) ==> SameClaim(expected, old(expected))
      ensures Count(events.landed, LeaseLost) <= Count(events.attempted, LeaseLost) == if superseded then 1 else 0
    {
      var k := 0;
      while k < calls
        invariant Valid() && Onward()
      {
        if head.Idle? {
          CallWhenIdle();
        } else {
          CallWhenBusy();
        }
        CallAnytime();
        k := k + 1;
      }
    }

    method CallWhenIdle()
      requires Valid() && head.Idle?
      modifies this
      ensures Valid() && Onward()
    {
      var now: int, failure: Option<StoreFailure> := *, *;
      if {
        case pending != [] => ReachHead(now);
        case MayRelease(View()) => ReleaseSettles(failure);
        case true =>
      }
    }

    method CallWhenBusy()
      requires Valid() && !head.Idle?
      modifies this
      ensures Valid() && Onward()
    {
      var now: int, failure: StoreFailure, record: OwnerRecord, persisted: Option<OwnerRecord> := *, *, *, *;
      if {
        case head.Affirming? => AffirmLands();
        case head.Affirming? => AffirmFails(failure);
        case head.AffirmWritten? => AffirmSucceeds(now);
        case head.Rereading? => Rereads(persisted);
        case head.SpanOpen? => SpanReads(record);
        case head.SpanOpen? || head.SpanRead? => SpanEnds();
        case head.SpanRead? => SpanLands(record.(processId := me));
        case head.SpanWritten? => AdoptTransfer();
        case head.SpanWritten? => SpanThrows();
        case true =>
      }
    }

    method CallAnytime()
      requires Valid()
      modifies this
      ensures Valid() && Onward()
    {
      var op: QueueOp, record: OwnerRecord, event: LeaseEvent, lands: bool := *, *, *, *;
      if {
        case event in events.inFlight => AppendEnds(event, lands);
        case true => Join(op);
        case true => ReadForAssert(record);
        case record in seen => var held := AssertHeld(record);
        case true => AssertHeldUnreadable();
        case true => StopHeartbeat();
        case true =>
      }
    }
  }
}
