/** Verifying a saved result again: a prepared, then entered, then completed lifecycle over files that are each
    replaced atomically. After entry nothing external may ever be started again, whatever was lost since.
    A digest carries the content it digests. */
module SavedResult {
  import opened Basics
  import opened RunStates
  import opened UsageLedger

  datatype Prepared = Prepared(candidate: Id, inputs: Id, at: Id)

  datatype Entry = Entry(candidate: Id, inputs: Id, at: Id)

  datatype Reason =
    | NoReason | Rejected | Modified | Unpublished | Interrupted | SourceStale | BeforeEntry | LifecycleUnavailable | OtherReason

  datatype State = State(
    status: RunStatus, attemptsUsed: int, package: Id, prepared: Option<Prepared>, entry: Option<Entry>, reason: Reason)

  datatype Lifecycle = PreparedStage(package: Id, prepared: Prepared) | EnteredStage(package: Id, entry: Entry) | MalformedStage

  datatype Marker = Marker(package: Id, entry: Entry) | TornMarker

  // `inSchema` covers the schema name, the verification's shape and its token count.
  datatype Completion = Completion(inSchema: bool, package: Id, state: State, approved: bool) | TornCompletion(text: Id)

  datatype Tree = NoTree | UnreadableTree | Fingerprint(hash: Id)

  datatype Files = Files(
    state: State,
    lifecycle: Option<Lifecycle>,
    marker: Option<Marker>,
    completion: Option<Completion>,
    completionHash: Option<Completion>,
    verifyApproved: Option<bool>,
    tree: Tree,
    inputs: Id,
    fenced: bool,
    published: bool,
    delivered: Option<bool>)

  predicate Ended(status: RunStatus) {
    status.Failed? || status.Exhausted? || status.Cancelled? || status.BlockedWaitingHuman?
  }

  predicate HasPreparedProof(f: Files, s: State) {
    && f.lifecycle.Some? && f.lifecycle.value.PreparedStage?
    && f.lifecycle.value.package == s.package && s.prepared == Some(f.lifecycle.value.prepared)
    && s.entry == None && f.marker == None
  }

  // A lifecycle that cannot be parsed counts as entered.
  predicate HasEntry(f: Files) {
    || (f.lifecycle.Some? && !f.lifecycle.value.PreparedStage?)
    || f.marker.Some?
  }

  predicate Unmodified(f: Files, s: State) {
    && s.entry.Some? && f.tree == Fingerprint(s.entry.value.candidate) && s.entry.value.inputs == f.inputs && f.fenced
  }

  datatype Check = Holds | IsModified | IsUnpublished | IsInvalid

  // A cleaned workspace counts only through its exact completion and a genuine publication.
  function CompletionCandidate(f: Files, s: State): Check {
    if f.tree != NoTree then (if Unmodified(f, s) then Holds else IsModified)
    else if f.completion == None || f.completionHash == None then IsInvalid
    else if f.completionHash != f.completion || !f.completion.value.Completion? || !f.completion.value.inSchema
         || f.completion.value.package != s.package || f.completion.value.state != s then IsUnpublished
    else if s.entry == None || s.entry.value.inputs != f.inputs then IsModified
    else if !f.published then IsUnpublished
    else Holds
  }

  function Delivery(f: Files, s: State): Check {
    var candidate := CompletionCandidate(f, s);
    if candidate != Holds then candidate
    else if !f.published then IsUnpublished
    else if f.delivered != Some(true) then IsModified
    else Holds
  }

  // The completion names a terminal state of the one attempt, and agrees with hash file, marker and lifecycle.
  predicate Agrees(f: Files, package: Id) {
    && f.completion.Some? && f.completionHash == f.completion
    && f.completion.value.Completion? && f.completion.value.inSchema
    && f.completion.value.package == package
    && var s := f.completion.value.state;
    && s.entry.Some? && s.attemptsUsed == 1 && Terminal(s.status)
    && (s.status == Succeeded ==> f.completion.value.approved)
    && f.marker == Some(Marker(package, s.entry.value))
    && f.lifecycle == Some(EnteredStage(package, s.entry.value))
    && s.entry.value.inputs == f.inputs
  }

  // What the completion leads to, or the check that stopped it.
  function ReadCompletion(f: Files, s: State, allowResult: bool): Result<State, Check> {
    if !allowResult || !Agrees(f, s.package) then Err(IsInvalid)
    else if Ended(s.status) && s != f.completion.value.state then Ok(s)
    else
      var result := f.completion.value.state;
      var candidate := CompletionCandidate(f, result);
      if candidate != Holds then Err(candidate)
      else if f.delivered.Some? && Delivery(f, result) != Holds then Err(Delivery(f, result))
      else Ok(result)
  }

  function RecoveredEntry(f: Files): Option<(Id, Entry)> {
    if f.marker.Some? && f.marker.value.Marker? then Some((f.marker.value.package, f.marker.value.entry))
    else if f.lifecycle.Some? && f.lifecycle.value.EnteredStage? then Some((f.lifecycle.value.package, f.lifecycle.value.entry))
    else None
  }

  // Recovery after entry: read, never run. `None` is a thrown error, which leaves everything as it was.
  function RecoverEntry(f: Files, s: State, allowResult: bool): Option<State> {
    var read := ReadCompletion(f, s, allowResult);
    if read.Ok? then Some(read.value)
    else if Ended(s.status) then Some(s)
    else if read.error == IsUnpublished then Some(s.(status := Failed, reason := Unpublished))
    else if read.error == IsModified then Some(s.(status := Failed, reason := Modified))
    else
      var found := RecoveredEntry(f);
      if found == None || found.value.0 != s.package then None
      else if f.tree != Fingerprint(found.value.1.candidate) || found.value.1.inputs != f.inputs then
        Some(s.(status := Failed, reason := Modified))
      else if f.verifyApproved == Some(false) then Some(s.(status := Failed, reason := Rejected))
      else Some(s.(status := BlockedWaitingHuman, reason := if allowResult then Interrupted else SourceStale,
                   entry := Some(found.value.1)))
  }

  // Recovery answers "succeeded" exactly for a completion that all four files agree on, that is a
  // success, and whose candidate (and delivery, if there is one) still stands; and it always ends the run.
  lemma SucceedsExactly(f: Files, s: State, allowResult: bool)
    ensures var answer := RecoverEntry(f, s, allowResult);
            && (answer.Some? && answer.value.status == Succeeded <==>
                  && allowResult && !Ended(s.status) && Agrees(f, s.package)
                  && f.completion.value.state.status == Succeeded
                  && CompletionCandidate(f, f.completion.value.state) == Holds
                  && (f.delivered == None || Delivery(f, f.completion.value.state) == Holds))
            && (answer.Some? && answer.value.status == Succeeded ==> answer.value == f.completion.value.state)
            && (answer.Some? ==> Terminal(answer.value.status))
  {
  }

  // A failed, exhausted, cancelled or blocked state is answered as it is.
  lemma EndedStands(f: Files, s: State, allowResult: bool)
    requires Ended(s.status)
    ensures RecoverEntry(f, s, allowResult) == Some(s)
  {
  }

  // Without a completion to go by, an unfinished run is left for a person exactly when its own entry survives,
  // the candidate and the protected inputs are still what was entered, and no rejection is on record.
  lemma InterruptedExactly(f: Files, s: State, allowResult: bool)
    requires !Ended(s.status) && ReadCompletion(f, s, allowResult) == Err(IsInvalid)
    ensures var answer := RecoverEntry(f, s, allowResult);
            var found := RecoveredEntry(f);
            var own := found.Some? && found.value.0 == s.package;
            var intact := own && f.tree == Fingerprint(found.value.1.candidate) && found.value.1.inputs == f.inputs;
            && (answer == None <==> !own)
            && (answer.Some? && answer.value.status == BlockedWaitingHuman <==> intact && f.verifyApproved != Some(false))
            && (answer.Some? && answer.value.reason == Modified && answer.value.status == Failed <==> own && !intact)
            && (answer.Some? && answer.value.reason == Rejected && answer.value.status == Failed <==>
                  intact && f.verifyApproved == Some(false))
            && (answer.Some? && answer.value.status == BlockedWaitingHuman ==> answer.value.entry == Some(found.value.1))
  {
  }

  datatype Launch = RequiredCheck(index: nat) | Verifier

  function Planned(index: nat, checks: nat): Launch {
    if index < checks then RequiredCheck(index) else Verifier
  }

  datatype Flow = Next | Stop | Crash

  datatype VerifierType = CommandVerifier | AgentVerifier

  /** The run directory over every start, crash and settlement. `launches` lists every external command ever
      given input; `entered` is the entry that was genuinely made. A command verifier is the checks alone. */
  class SavedRun {
    const package: Id
    const checks: nat
    const verifierType: VerifierType
    var files: Files
    ghost var launches: seq<Launch>
    ghost var entered: Option<Entry>

    // How many launches the contract plans.
    function PlannedLaunches(): nat {
      checks + if verifierType == AgentVerifier then 1 else 0
    }

    ghost predicate Valid()
      reads this
    {
      && files.state.package == package && 0 <= files.state.attemptsUsed <= 1
      // Checks in order, then any agent verifier: so each at most once.
      && |launches| <= PlannedLaunches()
      && (forall i :: 0 <= i < |launches| ==> launches[i] == Planned(i, checks))
      && (launches != [] ==> files.state.entry.Some?)
      // And a success is only ever on record after all of them.
      && (files.state.status == Succeeded ==> |launches| == PlannedLaunches())
      && EntryGenuine()
    }

    ghost predicate EntryGenuine()
      reads this
    {
      && (files.state.entry.Some? ==> files.state.entry == entered)
      && (entered.Some? ==>
            && files.state.attemptsUsed >= 1
            && !(files.lifecycle.Some? && files.lifecycle.value.PreparedStage?))
      && (files.lifecycle.Some? && files.lifecycle.value.EnteredStage? ==>
            entered == Some(files.lifecycle.value.entry) && files.lifecycle.value.package == package)
      && (files.marker.Some? && files.marker.value.Marker? ==>
            entered == Some(files.marker.value.entry) && files.marker.value.package == package)
      && (files.marker.Some? ==> entered.Some?)
      && (files.completion.Some? && files.completion.value.Completion? ==>
            && files.completion.value.state.package == package && entered.Some?
            && files.completion.value.state.entry == entered
            && (files.completion.value.state.status == Succeeded ==> |launches| == PlannedLaunches()))
    }

    lemma StartedAtMostOnce()
      requires Valid()
      ensures forall i, j :: 0 <= i < j < |launches| ==> launches[i] != launches[j]
      ensures files.state.status == Succeeded ==>
                && (verifierType == AgentVerifier <==> Verifier in launches)
                && forall k: nat :: k < checks ==> RequiredCheck(k) in launches
    {
      if files.state.status == Succeeded {
        assert verifierType == AgentVerifier ==> launches[checks] == Verifier;
        forall k: nat | k < checks
          ensures RequiredCheck(k) in launches
        {
          assert launches[k] == RequiredCheck(k);
        }
      }
    }

    constructor (package: Id, checks: nat, verifierType: VerifierType)
      ensures Valid() && launches == []
    {
      this.package, this.checks, this.verifierType := package, checks, verifierType;
      files := Files(State(Planning, 0, package, None, None, NoReason), None, None, None, None, None, NoTree, 0, true, false, None);
      launches, entered := [], None;
    }

    // Between two steps: a crash; any change to the tree, the protected inputs, the publication or the
    // delivery; and loss or corruption, but not forgery, of the run's own records.
    method Interfere() returns (crash: bool)
      requires Valid()
      modifies this`files
      ensures Valid() && files.state == old(files).state
    {
      crash := *;
      var tree: Tree, inputs: Id, fenced: bool, published: bool, delivered: Option<bool> := *, *, *, *, *;
      var approved: Option<bool> := *;
      files := files.(tree := tree, inputs := inputs, fenced := fenced, published := published, delivered := delivered,
                      verifyApproved := approved);
      if * {
        LoseCompletion();
      }
      if * {
        LoseEntry();
      }
    }

    method LoseCompletion()
      requires Valid()
      modifies this`files
      ensures Valid() && files.state == old(files).state
    {
      var torn: Id := *;
      if {
        case true => files := files.(completion := None);
        case true => files := files.(completion := Some(TornCompletion(torn)));
        case true => files := files.(completionHash := None);
        case true => files := files.(completionHash := Some(TornCompletion(torn)));
      }
    }

    method LoseEntry()
      requires Valid()
      modifies this`files
      ensures Valid() && files.state == old(files).state
    {
      if {
        case true => files := files.(lifecycle := None);
        case files.lifecycle.Some? => files := files.(lifecycle := Some(MalformedStage));
        case true => files := files.(marker := None);
        case files.marker.Some? => files := files.(marker := Some(TornMarker));
      }
    }

    // loop-state.json is replaced atomically.
    method WriteState(s: State) returns (crash: bool)
      requires Valid() && s.package == package && files.state.attemptsUsed <= s.attemptsUsed <= 1
      requires (s.entry.Some? ==> s.entry == entered) && (launches != [] ==> s.entry.Some?)
      requires s.status == Succeeded ==> |launches| == PlannedLaunches()
      modifies this`files
      ensures Valid() && (files.state == old(files).state || files.state == s)
      ensures !crash ==> files.state == s
    {
      crash := Interfere();
      if !crash {
        files := files.(state := s);
        crash := Interfere();
      }
    }

    method Prepare(s: State) returns (crash: bool, next: State)
      requires Valid() && launches == [] && entered == None && s.package == package && s.entry == None
      requires s.attemptsUsed == 1 && s.status != Succeeded
      modifies this`files
      ensures Valid()
      ensures !crash ==> next == s.(prepared := next.prepared) && files.state == next
    {
      next := s;
      crash := Interfere();
      var candidate: Id, at: Id := *, *;
      if crash || files.tree != Fingerprint(candidate) {
        return true, next;
      }
      var prepared := Prepared(candidate, files.inputs, at);
      files := files.(lifecycle := Some(PreparedStage(package, prepared)));
      next := s.(prepared := Some(prepared));
      crash := WriteState(next);
    }

    // Entry is durable, twice over and then in the run state, before any command is given input.
    method Enter(s: State) returns (flow: Flow, next: State)
      requires Valid() && launches == [] && entered == None && files.state == s && s.attemptsUsed == 1
      modifies this`files, this`entered
      ensures Valid() && launches == []
      ensures flow == Next ==> next == s.(entry := entered) && entered.Some? && files.state == next
      ensures flow != Next ==> files.state == s || (entered.Some? && files.state == s.(entry := entered))
    {
      next := s;
      if !HasPreparedProof(files, s) {
        return Stop, next;
      }
      var at: Id := *;
      var entry := Entry(s.prepared.value.candidate, files.inputs, at);
      if files.tree != Fingerprint(entry.candidate) || entry.inputs != s.prepared.value.inputs {
        return Stop, next;
      }
      files := files.(lifecycle := Some(EnteredStage(package, entry)));
      entered := Some(entry);
      var crash := Interfere();
      if crash {
        return Crash, next;
      }
      files := files.(marker := Some(Marker(package, entry)));
      crash := Interfere();
      if crash {
        return Crash, next;
      }
      if !files.fenced {
        return Stop, next;
      }
      next := s.(entry := Some(entry));
      crash := WriteState(next);
      flow := if crash then Crash else Next;
    }

    // Every required check once, in order; the first failure stops; then the agent, if the contract has one, over
    // a candidate that is still what was entered. Either verdict may yet be refused for missing evidence.
    method RunChecks() returns (flow: Flow, approved: bool)
      requires Valid() && launches == [] && files.state.entry.Some?
      modifies this`files, this`launches
      ensures Valid() && files.state == old(files).state
      ensures flow == Next && approved ==> |launches| == PlannedLaunches()
    {
      approved := false;
      var k := 0;
      while k < checks
        invariant 0 <= k <= checks && Valid() && |launches| == k && files.state == old(files).state
      {
        launches := launches + [RequiredCheck(k)];
        var crash := Interfere();
        if crash {
          return Crash, false;
        }
        var failed: bool, aborted: bool := *, *;
        if aborted {
          return Stop, false;
        }
        if failed {
          return Next, false;
        }
        k := k + 1;
      }
      approved := *;
      if verifierType == CommandVerifier {
        return Next, approved;
      }
      if !Unmodified(files, files.state) {
        return Stop, false;
      }
      launches := launches + [Verifier];
      var crash := Interfere();
      flow := if crash then Crash else Next;
    }

    // The completion, then its hash, then the terminal run state.
    method Complete(s: State, approved: bool) returns (crash: bool)
      requires Valid() && Terminal(s.status) && (s.status == Succeeded ==> approved)
      requires s.package == package && s.entry.Some? && s.entry == entered && s.attemptsUsed == 1
      requires s.status == Succeeded ==> |launches| == PlannedLaunches()
      modifies this`files
      ensures Valid() && (files.state == old(files).state || files.state == s)
    {
      files := files.(completion := Some(Completion(true, package, s, approved)));
      crash := Interfere();
      if crash {
        return;
      }
      files := files.(completionHash := files.completion);
      crash := Interfere();
      if !crash {
        crash := WriteState(s);
      }
    }

    // One verification, from entry to its terminal state.
    method VerifyOnce(s: State)
      requires Valid() && launches == [] && entered == None && files.state == s && s.attemptsUsed == 1 && s.entry == None
      modifies this
      ensures Valid()
    {
      var flow, next := Enter(s);
      if flow != Next {
        if flow == Stop {
          var ended := WriteState(files.state.(status := Failed, reason := OtherReason));
        }
        return;
      }
      var approved;
      flow, approved := RunChecks();
      if flow == Crash {
        return;
      }
      if flow == Stop || !Unmodified(files, next) {
        var ended := WriteState(next.(status := Failed, reason := if flow == Stop then OtherReason else Modified));
        return;
      }
      var verdict: RunStatus := *;
      if !Terminal(verdict) || verdict == Succeeded {
        verdict := Failed;
      }
      var terminal := next.(status := if approved then Succeeded else verdict);
      var crash := Complete(terminal, approved);
    }

    // A start of the controller over whatever earlier starts left. With any trace of entry it only reads.
    method Start()
      requires Valid() && Resumable(files.state.status)
      modifies this
      ensures Valid()
      ensures old(HasEntry(files)) || old(files).state.entry.Some? ==> launches == old(launches)
    {
      var s := files.state;
      if s.entry.Some? || HasEntry(files) {
        RecoverInto(s, true);
        return;
      }
      if s.attemptsUsed > 0 && !HasPreparedProof(files, s) {
        return;
      }
      s := s.(status := Planning);
      var crash := WriteState(s);
      if crash {
        return;
      }
      s := s.(attemptsUsed := 1);
      crash := WriteState(s);
      if crash {
        return;
      }
      crash, s := Prepare(s);
      if crash {
        return;
      }
      s := s.(status := Verifying);
      crash := WriteState(s);
      if !crash {
        VerifyOnce(s);
      }
    }

    method RecoverInto(s: State, allowResult: bool)
      requires Valid() && s == files.state
      modifies this`files
      ensures Valid()
      ensures files.state == s || RecoverEntry(old(files), s, allowResult) == Some(files.state)
    {
      var answer := RecoverEntry(files, s, allowResult);
      if answer.Some? {
        EntrySurvives(s, allowResult);
        var crash := WriteState(answer.value);
      }
    }

    // Recovery never forgets or invents an entry.
    lemma EntrySurvives(s: State, allowResult: bool)
      requires Valid() && s == files.state && RecoverEntry(files, s, allowResult).Some?
      ensures var answer := RecoverEntry(files, s, allowResult).value;
              && answer.package == package && s.attemptsUsed <= answer.attemptsUsed <= 1
              && (answer.entry.Some? ==> answer.entry == entered)
              && (s.entry.Some? ==> answer.entry.Some?)
              && (answer.status == Succeeded ==> |launches| == PlannedLaunches())
    {
    }

    // Explicit settlement by a controller that found the owner and the worker dead. It launches nothing.
    method Settle(authorized: bool)
      requires Valid()
      modifies this`files
      ensures Valid()
      ensures Ended(old(files).state.status) ==> files.state == old(files).state
      ensures files.state.status == Succeeded && old(files).state.status != Succeeded ==>
                && authorized && Agrees(old(files), package) && files.state == old(files).completion.value.state
      ensures files.state == old(files).state || Terminal(files.state.status)
    {
      var s := files.state;
      var answer: Option<State> := Some(s);
      if HasEntry(files) {
        answer := RecoverEntry(files, s, authorized);
        SucceedsExactly(files, s, authorized);
        if answer.Some? {
          EntrySurvives(s, authorized);
        }
      } else if !Terminal(s.status) {
        answer := Some(s.(status := BlockedWaitingHuman,
                          reason := if HasPreparedProof(files, s) then BeforeEntry else LifecycleUnavailable));
      }
      if answer == None {
        return;
      }
      s := answer.value;
      var crash := WriteState(s);
      if crash || s.status != Succeeded {
        return;
      }
      if !files.fenced || CompletionCandidate(files, s) != Holds || files.delivered != Some(true) {
        crash := WriteState(s.(status := Failed, reason := Modified));
      }
    }
  }

  // ---- what is left of the grant after an interruption ----

  datatype Observed = AttemptEntry | VerifyPhase | SomethingElse

  function WorkEvents(events: seq<Event>): seq<Event> {
    if events == [] then []
    else
      var n := |events| - 1;
      WorkEvents(events[..n]) + (if events[n].bucket == Work then [events[n]] else [])
  }

  function Total(event: Event): Amount {
    if event.cumulative == None then ZERO else event.cumulative.value
  }

  function Kind(event: Event, observed: map<Id, Observed>): Observed {
    if event.source in observed then observed[event.source] else SomethingElse
  }

  // One work observation: measured, and either the entry, first and empty, or a verification.
  predicate WorkFits(event: Event, first: bool, observed: map<Id, Observed>) {
    && event.cumulative.Some? && SafeAmount(Total(event))
    && match Kind(event, observed)
       case AttemptEntry => first && Total(event) == Amount(0, 0, 1, 1)
       case VerifyPhase => true
       case SomethingElse => false
  }

  predicate Steady(work: seq<Event>, observed: map<Id, Observed>) {
    && (forall i :: 0 <= i < |work| ==> WorkFits(work[i], i == 0, observed))
    && (forall i :: 0 < i < |work| ==> Leq(Total(work[i - 1]), Total(work[i])))
  }

  predicate Saw(work: seq<Event>, kind: Observed, observed: map<Id, Observed>) {
    exists i :: 0 <= i < |work| && Kind(work[i], observed) == kind
  }

  predicate Accounted(l: Ledger, observed: map<Id, Observed>, runId: Id, generation: int, prepared: bool) {
    var work := WorkEvents(l.events);
    && l.nextSeq == |l.events| + 1 && Identified(l.events, runId, generation)
    && Steady(work, observed) && work != []
    && l.work == Total(work[|work| - 1]) && l.work.attempts == 1 && l.work.sessions == 1
    && (prepared || Saw(work, VerifyPhase, observed))
  }

  lemma {:induction false} WorkPrefix(events: seq<Event>, k: nat)
    requires k <= |events|
    ensures WorkEvents(events[..k]) <= WorkEvents(events)
  {
    if k < |events| {
      WorkPrefix(events[..|events| - 1], k);
      assert events[..|events| - 1][..k] == events[..k];
    } else {
      assert events[..k] == events;
    }
  }

  lemma SteadyPrefix(front: seq<Event>, work: seq<Event>, observed: map<Id, Observed>)
    requires Steady(work, observed) && front <= work
    ensures Steady(front, observed)
  {
    assert forall i :: 0 <= i < |front| ==> front[i] == work[i];
  }

  lemma SawMore(work: seq<Event>, event: Event, kind: Observed, observed: map<Id, Observed>)
    ensures Saw(work + [event], kind, observed) <==> Saw(work, kind, observed) || Kind(event, observed) == kind
  {
    var grown := work + [event];
    if Saw(work, kind, observed) {
      var i :| 0 <= i < |work| && Kind(work[i], observed) == kind;
      assert Kind(grown[i], observed) == kind;
    }
    assert grown[|work|] == event;
    if Kind(event, observed) == kind {
      assert Kind(grown[|work|], observed) == kind;
    }
  }

  lemma SteadyExtends(work: seq<Event>, event: Event, observed: map<Id, Observed>)
    requires Steady(work, observed)
    ensures Steady(work + [event], observed) <==>
              WorkFits(event, work == [], observed) && (work != [] ==> Leq(Total(work[|work| - 1]), Total(event)))
  {
    var grown := work + [event];
    assert forall i :: 0 <= i < |work| ==> grown[i] == work[i];
    assert grown[|work|] == event;
  }

  // One step of the loop: what the event must be, given what was seen before it.
  method CheckWork(event: Event, sawEntry: bool, sawVerification: bool, work: Option<Amount>, observed: map<Id, Observed>)
    returns (fits: bool)
    ensures fits <==> WorkFits(event, !sawEntry && !sawVerification, observed) && (work.Some? ==> Leq(work.value, Total(event)))
  {
    if event.cumulative == None || !SafeAmount(event.cumulative.value) || event.source !in observed {
      return false;
    }
    if observed[event.source] == AttemptEntry {
      if sawEntry || sawVerification || event.cumulative.value != Amount(0, 0, 1, 1) {
        return false;
      }
    } else if observed[event.source] != VerifyPhase {
      return false;
    }
    fits := work == None || Leq(work.value, event.cumulative.value);
  }

  lemma OneMore(events: seq<Event>, k: nat, runId: Id, generation: int)
    requires k < |events|
    ensures WorkEvents(events[..k + 1]) == WorkEvents(events[..k]) + if events[k].bucket == Work then [events[k]] else []
    ensures Identified(events[..k + 1], runId, generation) <==>
              Identified(events[..k], runId, generation) && InPlace(events[k], k, runId, generation)
    ensures Identified(events, runId, generation) ==> InPlace(events[k], k, runId, generation)
  {
    WorkLast(events[..k], events[k]);
    assert events[..k + 1] == events[..k] + [events[k]];
    IdentifiedLast(events[..k], events[k], runId, generation);
  }

  predicate InPlace(event: Event, index: nat, runId: Id, generation: int) {
    event.seqNo == index + 1 && event.runId == runId && event.generation == generation
  }

  lemma IdentifiedLast(events: seq<Event>, event: Event, runId: Id, generation: int)
    ensures Identified(events + [event], runId, generation) <==>
              Identified(events, runId, generation) && InPlace(event, |events|, runId, generation)
  {
    var grown := events + [event];
    assert grown[|events|] == event;
    assert forall i :: 0 <= i < |events| ==> grown[i] == events[i];
  }

  lemma WorkLast(events: seq<Event>, event: Event)
    ensures WorkEvents(events + [event]) == WorkEvents(events) + if event.bucket == Work then [event] else []
  {
    assert (events + [event])[..|events|] == events;
  }

  // What the loop knows after the work observations `seen`.
  predicate Scanned(seen: seq<Event>, work: Option<Amount>, sawEntry: bool, sawVerification: bool, observed: map<Id, Observed>) {
    && Steady(seen, observed)
    && work == (if seen == [] then None else Some(Total(seen[|seen| - 1])))
    && (sawVerification <==> Saw(seen, VerifyPhase, observed))
    && (seen == [] <==> !sawEntry && !sawVerification)
  }

  method ScanOne(
    event: Event, ghost seen: seq<Event>, work: Option<Amount>, sawEntry: bool, sawVerification: bool, observed: map<Id, Observed>)
    returns (ok: bool, entry: bool, verification: bool)
    requires Scanned(seen, work, sawEntry, sawVerification, observed)
    ensures ok <==> Steady(seen + [event], observed)
    ensures ok ==> event.cumulative.Some? && Scanned(seen + [event], event.cumulative, entry, verification, observed)
  {
    ok := CheckWork(event, sawEntry, sawVerification, work, observed);
    SteadyExtends(seen, event, observed);
    SawMore(seen, event, VerifyPhase, observed);
    entry := sawEntry || Kind(event, observed) == AttemptEntry;
    verification := sawVerification || Kind(event, observed) == VerifyPhase;
  }

  // The loop over the ledger: it gives up at the first event that does not fit.
  method ScanWork(events: seq<Event>, observed: map<Id, Observed>, runId: Id, generation: int)
    returns (ok: bool, work: Option<Amount>, sawEntry: bool, sawVerification: bool)
    ensures ok <==> Identified(events, runId, generation) && Steady(WorkEvents(events), observed)
    ensures ok ==> Scanned(WorkEvents(events), work, sawEntry, sawVerification, observed)
  {
    work, sawEntry, sawVerification := None, false, false;
    var k := 0;
    ghost var seen: seq<Event> := [];
    while k < |events|
      invariant 0 <= k <= |events| && seen == WorkEvents(events[..k])
      invariant Identified(events[..k], runId, generation) && Scanned(seen, work, sawEntry, sawVerification, observed)
    {
      OneMore(events, k, runId, generation);
      if !InPlace(events[k], k, runId, generation) {
        return false, work, sawEntry, sawVerification;
      }
      if events[k].bucket == Work {
        ok, sawEntry, sawVerification := ScanOne(events[k], seen, work, sawEntry, sawVerification, observed);
        if !ok {
          assert WorkEvents(events[..k + 1]) == seen + [events[k]];
          NotSteady(events, k, observed);
          return;
        }
        work, seen := events[k].cumulative, seen + [events[k]];
      }
      assert seen == WorkEvents(events[..k + 1]);
      k := k + 1;
    }
    assert events[..k] == events;
    ok := true;
  }

  lemma NotSteady(events: seq<Event>, k: nat, observed: map<Id, Observed>)
    requires k < |events| && !Steady(WorkEvents(events[..k + 1]), observed)
    ensures !Steady(WorkEvents(events), observed)
  {
    WorkPrefix(events, k + 1);
    if Steady(WorkEvents(events), observed) {
      SteadyPrefix(WorkEvents(events[..k + 1]), WorkEvents(events), observed);
    }
  }

  // The remaining budget is stated exactly when the whole ledger accounts for it; otherwise it is unknown.
  method ReadBudget(l: Ledger, observed: map<Id, Observed>, runId: Id, generation: int, prepared: bool,
                    grantMs: int, grantTokens: Option<int>, budget: Budget) returns (left: Budget)
    ensures Accounted(l, observed, runId, generation, prepared) ==>
              left == budget.(timeRemaining := Remaining(grantMs, l.work.activeMs),
                              tokens := RemainingTokens(grantTokens, l.work.tokens),
                              tokenStatus := Some(if grantTokens == None then TokensUnlimited else TokensKnown))
    ensures !Accounted(l, observed, runId, generation, prepared) ==>
              left == budget.(tokens := None, tokenStatus := Some(TokensUnknown))
  {
    left := budget.(tokens := None, tokenStatus := Some(TokensUnknown));
    if l.nextSeq != |l.events| + 1 {
      return;
    }
    var ok, work, sawEntry, sawVerification := ScanWork(l.events, observed, runId, generation);
    if !ok || work == None || work.value.attempts != 1 || work.value.sessions != 1 || work.value != l.work {
      return;
    }
    if !sawVerification && (!sawEntry || !prepared) {
      return;
    }
    left := budget.(timeRemaining := Remaining(grantMs, work.value.activeMs),
                    tokens := RemainingTokens(grantTokens, work.value.tokens),
                    tokenStatus := Some(if grantTokens == None then TokensUnlimited else TokensKnown));
  }
}
