/** The append-only usage ledger of one worker generation, the worker hooks that write it, and the two readers
    that check it again. Observations are compared whole, which is what comparing their hashes amounts to. */
module UsageLedger {
  import opened Basics
  import opened ModelUsage
  import opened RunStates

  datatype Amount = Amount(tokens: int, activeMs: int, attempts: int, sessions: int)

  const ZERO := Amount(0, 0, 0, 0)

  datatype Bucket = Work | Handoff

  datatype ObservationId =
    | EntryOf(attempt: int)
    | SetupOf(attempt: int)
    | PhaseOf(attempt: int, phase: Phase)
    | HandoffOf(request: Id)
    | NaturalEnd(execution: Id)

  datatype Observation = Observation(
    id: ObservationId, runId: Id, generation: int, bucket: Bucket, threadTotalTokens: Option<int>,
    elapsedMs: int, attempts: int, sessions: int, evidence: Id, byModel: Option<seq<Usage>>)

  datatype Event = Event(
    seqNo: int, runId: Id, generation: int, bucket: Bucket, cumulative: Option<Amount>, source: Id,
    byModel: Option<seq<Usage>>)

  datatype Ledger = Ledger(
    nextSeq: int, work: Amount, handoff: Amount, events: seq<Event>,
    observed: map<ObservationId, (Observation, int)>)

  const EMPTY := Ledger(1, ZERO, ZERO, [], map[])

  datatype LedgerError = Invalid | Conflict | Overflow

  predicate Safe(n: int) {
    0 <= n <= MAX_SAFE
  }

  predicate SafeAmount(a: Amount) {
    Safe(a.tokens) && Safe(a.activeMs) && Safe(a.attempts) && Safe(a.sessions)
  }

  predicate Leq(a: Amount, b: Amount) {
    a.tokens <= b.tokens && a.activeMs <= b.activeMs && a.attempts <= b.attempts && a.sessions <= b.sessions
  }

  predicate SafeUsage(e: Usage) {
    e.input <= MAX_SAFE && e.output <= MAX_SAFE && e.cacheRead <= MAX_SAFE && e.cacheWrite <= MAX_SAFE
  }

  predicate BreakdownInSchema(byModel: Option<seq<Usage>>) {
    byModel.Some? ==>
      && byModel.value != [] && Ascending(byModel.value)
      && forall i :: 0 <= i < |byModel.value| ==> SafeUsage(byModel.value[i])
  }

  predicate InSchema(o: Observation) {
    && 1 <= o.generation <= MAX_SAFE
    && (o.threadTotalTokens.Some? ==> Safe(o.threadTotalTokens.value))
    && Safe(o.elapsedMs) && Safe(o.attempts) && Safe(o.sessions)
    && BreakdownInSchema(o.byModel)
  }

  function Totals(l: Ledger, bucket: Bucket): Amount {
    if bucket == Work then l.work else l.handoff
  }

  function FindEvent(events: seq<Event>, seqNo: int): Option<Event> {
    if events == [] then None
    else if events[0].seqNo == seqNo then Some(events[0])
    else FindEvent(events[1..], seqNo)
  }

  function NewTotals(l: Ledger, o: Observation): Amount {
    var previous := Totals(l, o.bucket);
    Amount(if o.threadTotalTokens == None then previous.tokens else o.threadTotalTokens.value,
           previous.activeMs + o.elapsedMs, o.attempts, o.sessions)
  }

  function NewEvent(l: Ledger, o: Observation): Event {
    Event(l.nextSeq, o.runId, o.generation, o.bucket,
          if o.threadTotalTokens == None then None else Some(NewTotals(l, o)), o.evidence, o.byModel)
  }

  // The ledger after one append, and what the append answers.
  function Appended(l: Ledger, o: Observation): (Ledger, Result<Event, LedgerError>) {
    if !InSchema(o) then (l, Err(Invalid))
    else if o.id in l.observed then
      var (first, seqNo) := l.observed[o.id];
      var event := FindEvent(l.events, seqNo);
      (l, if first != o then Err(Conflict) else if event == None then Err(Invalid) else Ok(event.value))
    else if Totals(l, o.bucket).activeMs + o.elapsedMs > MAX_SAFE || l.nextSeq + 1 > MAX_SAFE then (l, Err(Overflow))
    else
      var event := NewEvent(l, o);
      ( Ledger(l.nextSeq + 1,
               if o.bucket == Work then NewTotals(l, o) else l.work,
               if o.bucket == Handoff then NewTotals(l, o) else l.handoff,
               l.events + [event],
               l.observed[o.id := (o, l.nextSeq)]),
        Ok(event) )
  }

  predicate Recorded(l: Ledger, seqNo: int) {
    exists id :: id in l.observed && l.observed[id].1 == seqNo
  }

  // Dense numbers, and exactly one event for each observation id.
  ghost predicate WellFormed(l: Ledger) {
    && l.nextSeq == |l.events| + 1
    && (forall i :: 0 <= i < |l.events| ==> l.events[i].seqNo == i + 1)
    && (forall id :: id in l.observed ==> 1 <= l.observed[id].1 <= |l.events|)
    && (forall x, y :: x in l.observed && y in l.observed && l.observed[x].1 == l.observed[y].1 ==> x == y)
    && (forall n :: 1 <= n <= |l.events| ==> Recorded(l, n))
    && SafeAmount(l.work) && SafeAmount(l.handoff)
  }

  lemma {:induction false} FindEventExactly(events: seq<Event>, offset: int, n: int)
    requires forall i :: 0 <= i < |events| ==> events[i].seqNo == i + 1 + offset
    requires 1 <= n <= |events|
    ensures FindEvent(events, n + offset) == Some(events[n - 1])
  {
    if n > 1 {
      FindEventExactly(events[1..], offset + 1, n - 1);
    }
  }

  lemma AppendKeepsWellFormed(l: Ledger, o: Observation)
    requires WellFormed(l)
    ensures var (next, r) := Appended(l, o);
            && WellFormed(next)
            && l.events <= next.events
            && (forall id :: id in l.observed ==> id in next.observed && next.observed[id] == l.observed[id])
            && (r.Ok? <==> o.id in next.observed && next.observed[o.id].0 == o && InSchema(o))
            && (r.Ok? ==> r.value == next.events[next.observed[o.id].1 - 1])
            && (InSchema(o) ==> r != Err(Invalid))
  {
    if o.id in l.observed {
      FindEventExactly(l.events, 0, l.observed[o.id].1);
    } else if Appended(l, o).1.Ok? {
      NewEntryKeepsWellFormed(l, o);
    }
  }

  lemma AppendedOnRecord(l: Ledger, o: Observation)
    ensures Appended(l, o).1.Ok? ==> o.id in Appended(l, o).0.observed && Appended(l, o).0.observed[o.id].0 == o
  {
  }

  lemma NewEntryKeepsWellFormed(l: Ledger, o: Observation)
    requires WellFormed(l) && o.id !in l.observed && Appended(l, o).1.Ok?
    ensures WellFormed(Appended(l, o).0)
  {
    var next := Appended(l, o).0;
    assert next.observed[o.id].1 == |next.events|;
    forall n | 1 <= n <= |next.events|
      ensures Recorded(next, n)
    {
      if n < |next.events| {
        assert Recorded(l, n);
        var id :| id in l.observed && l.observed[id].1 == n;
        assert next.observed[id].1 == n;
      }
    }
  }

  function AppendedAll(l: Ledger, os: seq<Observation>): Ledger
    decreases |os|
  {
    if os == [] then l else AppendedAll(Appended(l, os[0]).0, os[1..])
  }

  lemma {:induction false} HistoryStands(l: Ledger, os: seq<Observation>)
    requires WellFormed(l)
    ensures var later := AppendedAll(l, os);
            && WellFormed(later) && l.events <= later.events
            && forall id :: id in l.observed ==> id in later.observed && later.observed[id] == l.observed[id]
    decreases |os|
  {
    if os != [] {
      AppendKeepsWellFormed(l, os[0]);
      HistoryStands(Appended(l, os[0]).0, os[1..]);
    }
  }

  // Whatever is appended in between, appending an observation again answers its first event and writes
  // nothing, and appending a changed one under the same id conflicts and writes nothing.
  lemma AppendTwice(l: Ledger, o: Observation, os: seq<Observation>, again: Observation)
    requires WellFormed(l) && Appended(l, o).1.Ok? && again.id == o.id
    ensures var later := AppendedAll(Appended(l, o).0, os);
            Appended(later, again) ==
              (later, if !InSchema(again) then Err(Invalid) else if again != o then Err(Conflict) else Appended(l, o).1)
  {
    var next := Appended(l, o).0;
    AppendKeepsWellFormed(l, o);
    HistoryStands(next, os);
    AppendKeepsWellFormed(AppendedAll(next, os), again);
    if again == o {
      assert next.events[next.observed[o.id].1 - 1] == AppendedAll(next, os).events[next.observed[o.id].1 - 1];
    }
  }

  // ---- the ordering check of the recovery reader ----

  // The last known total of a bucket.
  function Baseline(events: seq<Event>, bucket: Bucket): Amount {
    if events == [] then ZERO
    else
      var n := |events| - 1;
      if events[n].bucket == bucket && events[n].cumulative.Some? then events[n].cumulative.value
      else Baseline(events[..n], bucket)
  }

  // Every known total is at least the known total before it in its bucket, component by component.
  predicate Ordered(events: seq<Event>) {
    events == [] ||
    var n := |events| - 1;
    Ordered(events[..n])
    && (events[n].cumulative.Some? ==> Leq(Baseline(events[..n], events[n].bucket), events[n].cumulative.value))
  }

  predicate Identified(events: seq<Event>, runId: Id, generation: int) {
    forall i :: 0 <= i < |events| ==>
      events[i].seqNo == i + 1 && events[i].runId == runId && events[i].generation == generation
  }

  lemma {:induction false} OrderedPrefix(events: seq<Event>, k: nat)
    requires Ordered(events) && k <= |events|
    ensures Ordered(events[..k])
  {
    if k < |events| {
      OrderedPrefix(events[..|events| - 1], k);
      assert events[..|events| - 1][..k] == events[..k];
    } else {
      assert events[..k] == events;
    }
  }

  // The reader's loop: it stops at the first event that is out of place or falls below its baseline.
  method Replay(ledger: Ledger, runId: Id, generation: int, highWater: int)
    returns (ok: bool, work: Amount, handoff: Amount, unknown: bool)
    ensures ok <==> ledger.nextSeq == highWater + 1 && |ledger.events| == highWater
                    && Identified(ledger.events, runId, generation) && Ordered(ledger.events)
    ensures ok ==> work == Baseline(ledger.events, Work) && handoff == Baseline(ledger.events, Handoff)
    ensures ok ==> (unknown <==> exists i :: 0 <= i < |ledger.events| && ledger.events[i].cumulative == None)
  {
    work, handoff, unknown := ZERO, ZERO, false;
    if ledger.nextSeq != highWater + 1 || |ledger.events| != highWater {
      return false, work, handoff, unknown;
    }
    var k := 0;
    while k < |ledger.events|
      invariant 0 <= k <= |ledger.events|
      invariant Identified(ledger.events[..k], runId, generation) && Ordered(ledger.events[..k])
      invariant work == Baseline(ledger.events[..k], Work) && handoff == Baseline(ledger.events[..k], Handoff)
      invariant unknown <==> exists i :: 0 <= i < k && ledger.events[i].cumulative == None
    {
      var event := ledger.events[k];
      assert ledger.events[..k + 1][..k] == ledger.events[..k];
      if event.seqNo != k + 1 || event.runId != runId || event.generation != generation {
        return false, work, handoff, unknown;
      }
      if event.cumulative == None {
        unknown := true;
      } else {
        var value := event.cumulative.value;
        if !Leq(if event.bucket == Work then work else handoff, value) {
          assert !Ordered(ledger.events[..k + 1]);
          if Ordered(ledger.events) {
            OrderedPrefix(ledger.events, k + 1);
          }
          return false, work, handoff, unknown;
        }
        if event.bucket == Work {
          work := value;
        } else {
          handoff := value;
        }
      }
      k := k + 1;
    }
    assert ledger.events[..k] == ledger.events;
    ok := true;
  }

  // ---- the reader of a parked boundary ----

  function ParseKnownWork(l: Ledger, runId: Id, generation: int, highWater: int): Option<Amount> {
    if l.nextSeq != highWater || |l.events| != l.nextSeq - 1 then None
    else if exists i :: 0 <= i < |l.events| && (l.events[i].seqNo != i + 1 || l.events[i].runId != runId
              || l.events[i].generation != generation || (l.events[i].bucket == Work && l.events[i].cumulative == None)) then None
    else if l.events == [] then None
    else
      var settled := l.events[|l.events| - 1];
      if settled.bucket != Work || settled.cumulative == None || settled.cumulative.value != l.work
         || settled.cumulative.value.attempts < 1 || settled.cumulative.value.sessions < 1 then None
      else settled.cumulative
  }

  // ---- the worker that writes it ----

  // What holds between two hooks. Before the run settles only the work bucket has been written.
  ghost predicate WorkerInv(l: Ledger, runId: Id, generation: int, cumulativeTokens: int, lastAttempt: int, known: bool) {
    && WellFormed(l) && Identified(l.events, runId, generation)
    && Rising(l, cumulativeTokens, lastAttempt)
    && KnownSoFar(l, known)
  }

  predicate Rising(l: Ledger, cumulativeTokens: int, lastAttempt: int) {
    && Ordered(l.events)
    && Leq(Baseline(l.events, Work), l.work) && Baseline(l.events, Handoff) == l.handoff == ZERO
    && l.work.tokens <= cumulativeTokens && l.work.attempts <= lastAttempt && l.work.sessions <= 1
  }

  predicate KnownSoFar(l: Ledger, known: bool) {
    && (forall i :: 0 <= i < |l.events| ==>
          l.events[i].bucket == Work
          && if l.events[i].cumulative == None then !known
             else l.events[i].cumulative.value.attempts >= 1 && l.events[i].cumulative.value.sessions >= 1)
    && (l.events != [] && l.events[|l.events| - 1].cumulative.Some? ==>
          l.events[|l.events| - 1].cumulative.value == l.work)
  }

  // An observation a hook may make at this point of the run.
  predicate Timely(o: Observation, runId: Id, generation: int, cumulativeTokens: int, lastAttempt: int) {
    && o.runId == runId && o.generation == generation && o.bucket == Work && o.sessions == 1
    && 1 <= o.attempts == lastAttempt
    && (o.threadTotalTokens.Some? ==> o.threadTotalTokens.value == cumulativeTokens)
  }

  lemma AppendKeepsRising(l: Ledger, o: Observation, runId: Id, generation: int, cumulativeTokens: int, lastAttempt: int)
    requires Rising(l, cumulativeTokens, lastAttempt) && Timely(o, runId, generation, cumulativeTokens, lastAttempt)
    ensures Rising(Appended(l, o).0, cumulativeTokens, lastAttempt)
  {
    var next := Appended(l, o).0;
    if next != l {
      assert next.events[..|l.events|] == l.events;
    }
  }

  lemma AppendKeepsWorkerInv(l: Ledger, o: Observation, runId: Id, generation: int, cumulativeTokens: int, lastAttempt: int, known: bool)
    requires WorkerInv(l, runId, generation, cumulativeTokens, lastAttempt, known)
    requires Timely(o, runId, generation, cumulativeTokens, lastAttempt)
    ensures WorkerInv(Appended(l, o).0, runId, generation, cumulativeTokens, lastAttempt, known && o.threadTotalTokens.Some?)
  {
    AppendKeepsWellFormed(l, o);
    AppendKeepsRising(l, o, runId, generation, cumulativeTokens, lastAttempt);
  }

  // What one append of the run's own does: a refused one nothing, an accepted one keeps everything.
  lemma ObserveKeeps(l: Ledger, o: Observation, runId: Id, generation: int, cumulativeTokens: int, lastAttempt: int, known: bool)
    requires WorkerInv(l, runId, generation, cumulativeTokens, lastAttempt, known) && lastAttempt <= o.attempts
    requires Timely(o, runId, generation, cumulativeTokens, o.attempts) && (known ==> o.threadTotalTokens.Some?)
    ensures var (next, r) := Appended(l, o);
            && (r.Err? ==> next == l)
            && (r.Ok? ==> WorkerInv(next, runId, generation, cumulativeTokens, o.attempts, known))
            && l.events <= next.events
            && (r.Ok? ==> o.id in next.observed && next.events != [])
            && (InSchema(o) ==> r != Err(Invalid))
  {
    AppendKeepsWellFormed(l, o);
    AppendKeepsWorkerInv(l, o, runId, generation, cumulativeTokens, o.attempts, known);
  }

  // The attempts on record are those so far.
  predicate AttemptsUpTo(l: Ledger, lastAttempt: int) {
    && (l.events != [] ==> l.work.attempts == lastAttempt)
    && (forall id :: id in l.observed ==> l.observed[id].0.attempts <= lastAttempt)
  }

  lemma ObserveRaises(l: Ledger, o: Observation, lastAttempt: int)
    requires AttemptsUpTo(l, lastAttempt) && lastAttempt <= o.attempts && o.bucket == Work
    requires Appended(l, o).1.Ok?
    ensures AttemptsUpTo(Appended(l, o).0, o.attempts)
  {
  }

  predicate Measured(events: seq<Event>) {
    events != [] && forall i :: 0 <= i < |events| ==> events[i].cumulative.Some?
  }

  // The parked-boundary reader accepts it exactly when something was observed and nothing of it is
  // unknown, and then reads the running total.
  lemma ParkedLedgerParses(l: Ledger, runId: Id, generation: int, cumulativeTokens: int, lastAttempt: int, known: bool)
    requires WorkerInv(l, runId, generation, cumulativeTokens, lastAttempt, known)
    ensures var parsed := ParseKnownWork(l, runId, generation, l.nextSeq);
            && (parsed.Some? <==> Measured(l.events))
            && (known && l.events != [] ==> parsed.Some?)
            && (parsed.Some? ==> parsed.value == l.work)
  {
  }

  lemma ClosingKeeps(l: Ledger, o: Observation, cumulativeTokens: int, lastAttempt: int)
    requires WellFormed(l) && Identified(l.events, o.runId, o.generation) && Rising(l, cumulativeTokens, lastAttempt)
    requires o.bucket == Handoff && o.threadTotalTokens == Some(0) && Leq(ZERO, NewTotals(l, o))
    ensures var next := Appended(l, o).0;
            WellFormed(next) && Identified(next.events, o.runId, o.generation) && Ordered(next.events)
    ensures o.id !in l.observed && Appended(l, o).1.Ok? ==> Appended(l, o).1.value.seqNo == |l.events| + 1
  {
    AppendKeepsWellFormed(l, o);
    var next := Appended(l, o).0;
    if next != l {
      assert next.events[..|l.events|] == l.events;
    }
  }

  // ---- the hooks ----

  datatype Settled = Settled(
    phase: Phase, attempt: int, elapsedMs: int, tokenUsage: Option<nat>, modelUsage: Option<seq<Usage>>, evidence: Id)

  class Worker {
    const runId: Id
    const generation: int
    const strict: bool   // protocol 4: once a phase's usage is unknown, so is every later total
    const accumulator: Accumulator
    var ledger: Ledger
    var cumulativeTokens: int
    var usageKnown: bool
    ghost var lastAttempt: int

    ghost predicate Valid()
      reads this, accumulator
    {
      && 1 <= generation <= MAX_SAFE && 0 <= cumulativeTokens <= MAX_SAFE
      && WorkerInv(ledger, runId, generation, cumulativeTokens, lastAttempt, usageKnown)
      && AttemptsUpTo(ledger, lastAttempt)
      && accumulator.Valid() && (accumulator.byModel.Some? ==> accumulator.spent == cumulativeTokens)
    }

    constructor (runId: Id, generation: int, strict: bool)
      requires 1 <= generation <= MAX_SAFE
      ensures Valid() && fresh(accumulator) && ledger == EMPTY && cumulativeTokens == 0 && usageKnown && lastAttempt == 0
      ensures this.runId == runId && this.generation == generation && this.strict == strict
    {
      this.runId, this.generation, this.strict := runId, generation, strict;
      accumulator := new Accumulator();
      ledger, cumulativeTokens, usageKnown, lastAttempt := EMPTY, 0, true, 0;
    }

    // One append under the usage lock, as the ledger file sees it.
    method Append(o: Observation) returns (r: Result<Event, LedgerError>)
      modifies this`ledger
      ensures (ledger, r) == Appended(old(ledger), o)
    {
      if !InSchema(o) {
        return Err(Invalid);
      }
      if o.id in ledger.observed {
        var (first, seqNo) := ledger.observed[o.id];
        if first != o {
          return Err(Conflict);
        }
        var event := FindEvent(ledger.events, seqNo);
        return if event == None then Err(Invalid) else Ok(event.value);
      }
      var previous := if o.bucket == Work then ledger.work else ledger.handoff;
      if previous.activeMs + o.elapsedMs > MAX_SAFE {
        return Err(Overflow);
      }
      var totals := Amount(if o.threadTotalTokens == None then previous.tokens else o.threadTotalTokens.value,
                           previous.activeMs + o.elapsedMs, o.attempts, o.sessions);
      var event := Event(ledger.nextSeq, o.runId, o.generation, o.bucket,
                         if o.threadTotalTokens == None then None else Some(totals), o.evidence, o.byModel);
      if ledger.nextSeq + 1 > MAX_SAFE {
        return Err(Overflow);
      }
      ledger := Ledger(ledger.nextSeq + 1,
                       if o.bucket == Work then totals else ledger.work,
                       if o.bucket == Handoff then totals else ledger.handoff,
                       ledger.events + [event],
                       ledger.observed[o.id := (o, event.seqNo)]);
      r := Ok(event);
    }

    // An append made by a hook: the observation is of this run, at its present attempt and count.
    method Observe(o: Observation) returns (r: Result<Event, LedgerError>)
      requires Valid() && lastAttempt <= o.attempts && Timely(o, runId, generation, cumulativeTokens, o.attempts)
      requires usageKnown ==> o.threadTotalTokens.Some?
      modifies this`ledger, this`lastAttempt
      ensures Valid() && (ledger, r) == Appended(old(ledger), o)
      ensures old(ledger).events <= ledger.events
      ensures r.Ok? ==> o.id in ledger.observed && ledger.events != [] && lastAttempt == o.attempts
      ensures lastAttempt == old(lastAttempt) || lastAttempt == o.attempts
      ensures InSchema(o) ==> r != Err(Invalid)
    {
      ObserveKeeps(ledger, o, runId, generation, cumulativeTokens, lastAttempt, usageKnown);
      r := Append(o);
      if r.Ok? {
        ObserveRaises(old(ledger), o, lastAttempt);
        lastAttempt := o.attempts;
      }
    }

    ghost predicate OnRecord(o: Observation)
      reads this`ledger
    {
      o.id in ledger.observed && ledger.observed[o.id].0 == o
    }

    // A saved-result attempt is entered before anything is spent.
    method OnRecoveryAttemptEntered(attempt: int, evidence: Id) returns (r: Result<Event, LedgerError>)
      requires Valid() && cumulativeTokens == 0 && 1 <= attempt && lastAttempt <= attempt
      modifies this`ledger, this`lastAttempt
      ensures Valid() && old(ledger).events <= ledger.events
      ensures r.Ok? ==> OnRecord(Observation(EntryOf(attempt), runId, generation, Work, Some(0), 0, attempt, 1, evidence, None))
    {
      var o := Observation(EntryOf(attempt), runId, generation, Work, Some(0), 0, attempt, 1, evidence, None);
      AppendedOnRecord(ledger, o);
      r := Observe(o);
    }

    method OnSetupEnded(attempt: int, elapsedMs: int, evidence: Id) returns (r: Result<Event, LedgerError>)
      requires Valid() && 1 <= attempt && lastAttempt <= attempt
      modifies this`ledger, this`lastAttempt
      ensures Valid() && old(ledger).events <= ledger.events
      ensures r.Ok? ==> ledger.events != [] && OnRecord(Observation(
                SetupOf(attempt), runId, generation, Work, if strict && !usageKnown then None else Some(cumulativeTokens),
                elapsedMs, attempt, 1, evidence, None))
      ensures lastAttempt == old(lastAttempt) || lastAttempt == attempt
      ensures Safe(elapsedMs) && attempt <= MAX_SAFE ==> r != Err(Invalid)
    {
      var o := Observation(SetupOf(attempt), runId, generation, Work,
        if strict && !usageKnown then None else Some(cumulativeTokens), elapsedMs, attempt, 1, evidence, None);
      AppendedOnRecord(ledger, o);
      r := Observe(o);
    }

    // The running count and the breakdown to put on this phase's event.
    method CountPhase(s: Settled) returns (counted: Result<Option<seq<Usage>>, LedgerError>)
      requires Valid()
      modifies this`usageKnown, this`cumulativeTokens, accumulator
      ensures Valid() && (usageKnown <==> old(usageKnown) && s.tokenUsage.Some?)
      ensures counted.Ok? ==>
                && cumulativeTokens == old(cumulativeTokens) + (if s.tokenUsage == None then 0 else s.tokenUsage.value)
                && BreakdownInSchema(counted.value)
                && (counted.value.Some? ==> Sum(counted.value.value) == cumulativeTokens)
      ensures counted.Err? ==> counted.error == Overflow
    {
      if s.tokenUsage == None {
        usageKnown := false;
        return Ok(None);
      }
      var next := cumulativeTokens + s.tokenUsage.value;
      if next > MAX_SAFE {
        return Err(Overflow);
      }
      cumulativeTokens := next;
      var byModel := accumulator.Settle(s.tokenUsage.value, s.modelUsage, cumulativeTokens);
      if byModel.Some? {
        BreakdownFits(byModel.value);
        assert byModel.value != [] by {
          NonEmptyAnswer(byModel.value, accumulator.history);
        }
      }
      counted := Ok(byModel);
    }

    // Every settled phase is observed once; the ledger it leaves still satisfies both readers' checks,
    // and any breakdown on the event adds up to the run's whole count.
    method OnPhaseSettled(s: Settled) returns (r: Result<Event, LedgerError>)
      requires Valid() && 1 <= s.attempt && lastAttempt <= s.attempt
      modifies this`ledger, this`lastAttempt, this`usageKnown, this`cumulativeTokens, accumulator
      ensures Valid() && (usageKnown <==> old(usageKnown) && s.tokenUsage.Some?)
      ensures old(ledger).events <= ledger.events
      ensures r.Ok? ==> ledger.events != [] && lastAttempt == s.attempt
      // What is on record of it is its own time and the running count, or no count once one is unknown.
      ensures r.Ok? ==>
                && cumulativeTokens == old(cumulativeTokens) + (if s.tokenUsage == None then 0 else s.tokenUsage.value)
                && PhaseOf(s.attempt, s.phase) in ledger.observed
                && var o := ledger.observed[PhaseOf(s.attempt, s.phase)].0;
                   o.elapsedMs == s.elapsedMs && o.attempts == s.attempt && o.evidence == s.evidence
                   && o.threadTotalTokens == if s.tokenUsage == None || (strict && !usageKnown) then None else Some(cumulativeTokens)
      ensures lastAttempt == old(lastAttempt) || lastAttempt == s.attempt
      ensures Safe(s.elapsedMs) && s.attempt <= MAX_SAFE ==> r != Err(Invalid)
      ensures r.Ok? && old(ledger) != ledger && r.value.byModel.Some? ==> Sum(r.value.byModel.value) == cumulativeTokens
    {
      var counted := CountPhase(s);
      if counted.Err? {
        return Err(counted.error);
      }
      var o := Observation(PhaseOf(s.attempt, s.phase), runId, generation, Work,
        if s.tokenUsage == None || (strict && !usageKnown) then None else Some(cumulativeTokens),
        s.elapsedMs, s.attempt, 1, s.evidence, counted.value);
      AppendedOnRecord(ledger, o);
      r := Observe(o);
    }

    // The end of the run. On an allowance park the ledger is captured first, and one that cannot be captured ends
    // it there; otherwise one mechanical event closes the handoff bucket at the high-water mark the packet was
    // built with.
    method OnRunSettled(parked: bool, id: ObservationId, evidence: Id)
      returns (captured: Option<Amount>, r: Result<Event, LedgerError>)
      requires Valid() && (id.HandoffOf? || id.NaturalEnd?)
      modifies this
      ensures parked && strict ==> (captured.Some? <==> Measured(old(ledger).events))
      ensures parked && strict && old(usageKnown) && old(ledger).events != [] ==> captured == Some(old(ledger).work)
      ensures parked && strict && captured == None ==> r == Err(Invalid) && ledger == old(ledger)
      ensures WellFormed(ledger) && Identified(ledger.events, runId, generation) && Ordered(ledger.events)
      ensures r.Ok? && id !in old(ledger).observed ==> r.value.seqNo == |old(ledger).events| + 1
      ensures r.Ok? ==> OnRecord(Observation(id, runId, generation, Handoff, Some(0), 0, 0, 0, evidence, None))
    {
      ParkedLedgerParses(ledger, runId, generation, cumulativeTokens, lastAttempt, usageKnown);
      captured := None;
      if parked && strict {
        captured := ParseKnownWork(ledger, runId, generation, |ledger.events| + 1);
        if captured == None {
          return captured, Err(Invalid);
        }
      }
      var o := Observation(id, runId, generation, Handoff, Some(0), 0, 0, 0, evidence, None);
      ClosingKeeps(ledger, o, cumulativeTokens, lastAttempt);
      AppendedOnRecord(ledger, o);
      r := Append(o);
    }
  }

  lemma {:induction false} SumBounds(entries: seq<Usage>, i: nat)
    requires i < |entries|
    ensures Tokens(entries[i]) <= Sum(entries)
  {
    if i > 0 {
      SumBounds(entries[1..], i - 1);
    }
  }

  lemma BreakdownFits(entries: seq<Usage>)
    requires Ascending(entries) && Sum(entries) <= MAX_SAFE
    ensures forall i :: 0 <= i < |entries| ==> SafeUsage(entries[i])
  {
    forall i | 0 <= i < |entries|
      ensures SafeUsage(entries[i])
    {
      SumBounds(entries, i);
    }
  }

  lemma NonEmptyAnswer(answer: seq<Usage>, history: seq<Usage>)
    requires history != [] && forall m :: Lookup(answer, m) == Total(history, m)
    ensures answer != []
  {
    var m := history[|history| - 1].model;
    assert Total(history, m).Some?;
    assert Lookup(answer, m).Some?;
  }
}
