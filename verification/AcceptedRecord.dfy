/** The accepted record of one work item, shared by racing accepts, the workers they launch, launchers that time
    out, a settling controller and anyone asking for a stop proof. Every change is read-check-write under an
    exclusive lock file; any process may die between any two steps, also while it holds the lock. */
module AcceptedRecord {
  import opened Basics

  datatype Launch = Intended | Claimed | Sealed | Unknown

  datatype Worker = Worker(pid: Id, startedAt: Id, nonce: Id)

  datatype Accepted = Accepted(
    envelopeHash: Id, executionId: Id, configHash: Id, generation: int, launch: Launch, worker: Option<Worker>)

  // How far a worker whose claim passed has come. A sealed worker's program is over.
  datatype Stage = Running | Over

  // A stop proof in the making: the list it read, how much of it was quiet, and in which round.
  datatype Prover = Prover(accepted: Accepted, second: bool, listed: seq<Id>, quiet: nat)

  datatype World = World(
    record: Option<Accepted>,
    lock: Option<Id>,
    seen: map<Id, Option<Accepted>>,
    dead: set<Id>,
    stages: map<Id, Stage>,
    claims: seq<Id>,
    registered: seq<Id>,
    live: set<Id>,
    completed: int,
    leaseReleased: bool,
    provers: map<Id, Prover>,
    proofs: seq<Prover>)

  datatype Act =
    | TakesLock(a: Id)
    | ReadsRecord(a: Id)
    | DropsLock(a: Id)
    | Creates(a: Id, proposed: Accepted)
    | Claims(a: Id, executionId: Id, worker: Worker)
    | Seals(a: Id, executionId: Id, nonce: Id)
    | MarksUnknown(a: Id, executionId: Id)
    | SettlesSealed(a: Id, of: Id)
    | Starts(a: Id, group: Id)
    | CompletesPhase(a: Id)
    | ChangesLease(a: Id, released: bool)
    | GroupEnds(a: Id, group: Id)
    | Dies(a: Id)
    | ProofListsFirst(a: Id, accepted: Accepted)
    | ProofProbes(a: Id)
    | ProofListsAgain(a: Id)
    | ProofIssues(a: Id)

  // What each writer makes of the record it finds, if it may write at all.
  function ClaimOf(r: Accepted, executionId: Id, worker: Worker): Option<Accepted> {
    if r.launch != Intended || r.executionId != executionId then None
    else Some(r.(launch := Claimed, worker := Some(worker)))
  }

  function SealOf(r: Accepted, executionId: Id, nonce: Id): Option<Accepted> {
    if r.launch != Claimed || r.executionId != executionId || r.worker == None || r.worker.value.nonce != nonce then None
    else Some(r.(launch := Sealed))
  }

  function UnknownOf(r: Accepted, executionId: Id): Option<Accepted> {
    if r.launch != Intended || r.executionId != executionId then None else Some(r.(launch := Unknown))
  }

  // What the lock holder saw when it read, if it read.
  predicate Saw(w: World, a: Id) {
    w.lock == Some(a) && a in w.seen && a !in w.dead && w.seen[a].Some?
  }

  predicate Enabled(w: World, act: Act) {
    && act.a !in w.dead
    && match act
       case TakesLock(a) => w.lock == None
       case ReadsRecord(a) => w.lock == Some(a)
       case DropsLock(a) => w.lock == Some(a)
       case Creates(a, proposed) =>
         w.lock == Some(a) && a in w.seen && w.seen[a] == None && proposed.launch == Intended && proposed.worker == None
       case Claims(a, executionId, worker) =>
         Saw(w, a) && a !in w.stages && ClaimOf(w.seen[a].value, executionId, worker).Some?
       case Seals(a, executionId, nonce) =>
         && Saw(w, a) && a in w.stages && w.stages[a] == Running
         && SealOf(w.seen[a].value, executionId, nonce).Some?
       case MarksUnknown(a, executionId) => Saw(w, a) && UnknownOf(w.seen[a].value, executionId).Some?
       case SettlesSealed(a, of) =>
         && Saw(w, a) && w.seen[a].value.worker.Some? && of in w.dead && w.claims == [of]
       case Starts(a, group) => a in w.stages && w.stages[a] == Running && group !in w.registered
       case CompletesPhase(a) => a in w.stages && w.stages[a] == Running
       case ChangesLease(_, _) => true
       case GroupEnds(_, group) => group in w.live
       case Dies(_) => true
       case ProofListsFirst(_, accepted) =>
         w.record == Some(accepted) && accepted.launch == Sealed && accepted.worker.Some? && w.leaseReleased
       case ProofProbes(a) =>
         && a in w.provers && w.provers[a].quiet < |w.provers[a].listed|
         && w.provers[a].listed[w.provers[a].quiet] !in w.live
       case ProofListsAgain(a) =>
         a in w.provers && !w.provers[a].second && w.provers[a].quiet == |w.provers[a].listed| && w.leaseReleased
       case ProofIssues(a) =>
         && a in w.provers && w.provers[a].second && w.provers[a].quiet == |w.provers[a].listed|
         && !(w.completed > 0 && w.provers[a].listed == [])
  }

  // A write under the lock: the holder knows what it wrote.
  function Write(w: World, a: Id, record: Accepted): World {
    w.(record := Some(record), seen := w.seen[a := Some(record)])
  }

  function Apply(w: World, act: Act): World
    requires Enabled(w, act)
  {
    match act
    case TakesLock(a) => w.(lock := Some(a), seen := w.seen - {a})
    case ReadsRecord(a) => w.(seen := w.seen[a := w.record])
    case DropsLock(a) => w.(lock := None, seen := w.seen - {a})
    case Creates(a, proposed) => Write(w, a, proposed)
    case Claims(a, executionId, worker) =>
      Write(w, a, ClaimOf(w.seen[a].value, executionId, worker).value).(
        stages := w.stages[a := Running], claims := w.claims + [a])
    case Seals(a, executionId, nonce) =>
      Write(w, a, SealOf(w.seen[a].value, executionId, nonce).value).(stages := w.stages[a := Over])
    case MarksUnknown(a, executionId) => Write(w, a, UnknownOf(w.seen[a].value, executionId).value)
    case SettlesSealed(a, _) => Write(w, a, w.seen[a].value.(launch := Sealed))
    case Starts(_, group) => w.(registered := w.registered + [group], live := w.live + {group})
    case CompletesPhase(_) => w.(completed := w.completed + 1)
    case ChangesLease(_, released) => w.(leaseReleased := released)
    case GroupEnds(_, group) => w.(live := w.live - {group})
    case Dies(a) => w.(dead := w.dead + {a})
    case ProofListsFirst(a, accepted) => w.(provers := w.provers[a := Prover(accepted, false, w.registered, 0)])
    case ProofProbes(a) => w.(provers := w.provers[a := w.provers[a].(quiet := w.provers[a].quiet + 1)])
    case ProofListsAgain(a) => w.(provers := w.provers[a := w.provers[a].(second := true, listed := w.registered, quiet := 0)])
    case ProofIssues(a) => w.(proofs := w.proofs + [w.provers[a]])
  }

  predicate Legal(w: World, acts: seq<Act>)
    decreases |acts|
  {
    acts == [] || (Enabled(w, acts[0]) && Legal(Apply(w, acts[0]), acts[1..]))
  }

  function Run(w: World, acts: seq<Act>): World
    requires Legal(w, acts)
    decreases |acts|
  {
    if acts == [] then w else Run(Apply(w, acts[0]), acts[1..])
  }

  const INITIAL := World(None, None, map[], {}, map[], [], [], {}, 0, false, map[], [])

  // ---- the invariant ----

  // Only the holder has read, and what it read is what is there.
  predicate LockInv(w: World) {
    forall a :: a in w.seen ==> w.lock == Some(a) && w.seen[a] == w.record
  }

  predicate RecordInv(w: World) {
    match w.record
    case None => w.claims == []
    case Some(r) =>
      if r.launch == Intended || r.launch == Unknown then r.worker == None && w.claims == []
      else r.worker.Some? && |w.claims| == 1
  }

  // A running worker is the one whose claim passed; once sealed it is over or dead.
  predicate StageInv(w: World) {
    forall a :: a in w.stages ==>
      && w.claims == [a]
      && (w.stages[a] == Running ==> a in w.dead || (w.record.Some? && w.record.value.launch == Claimed))
  }

  predicate ProverInv(w: World) {
    && (forall p :: p in w.provers ==> ProverSound(w, w.provers[p]))
    && (forall i :: 0 <= i < |w.proofs| ==> Proved(w, w.proofs[i]))
  }

  predicate ProverSound(w: World, p: Prover) {
    && w.record == Some(p.accepted) && p.accepted.launch == Sealed
    && p.listed == w.registered && p.quiet <= |p.listed|
    && (forall i :: 0 <= i < p.quiet ==> p.listed[i] !in w.live)
  }

  // What a proof claims: the record is sealed, and of everything ever registered nothing lives.
  predicate Proved(w: World, p: Prover) {
    && w.record == Some(p.accepted) && p.accepted.launch == Sealed
    && p.listed == w.registered
    && (forall i :: 0 <= i < |w.registered| ==> w.registered[i] !in w.live)
    && (w.completed > 0 ==> w.registered != [])
  }

  predicate Inv(w: World) {
    LockInv(w) && RecordInv(w) && StageInv(w) && ProverInv(w)
  }

  predicate Moves(before: Launch, after: Launch) {
    before == after || (before == Intended && (after == Claimed || after == Unknown)) || (before == Claimed && after == Sealed)
  }

  // What one step may do to the record: identity stands, the worker is set once, and the launch moves
  // from intended to claimed to sealed, or from intended to unknown.
  predicate RecordMoves(before: Option<Accepted>, after: Option<Accepted>) {
    before.Some? ==>
      && after.Some?
      && after.value.(launch := before.value.launch, worker := before.value.worker) == before.value
      && Moves(before.value.launch, after.value.launch)
      && (before.value.worker.Some? ==> after.value.worker == before.value.worker)
  }

  lemma StepKeepsRecord(w: World, act: Act)
    requires Inv(w) && Enabled(w, act)
    ensures LockInv(Apply(w, act)) && RecordInv(Apply(w, act)) && StageInv(Apply(w, act))
    ensures RecordMoves(w.record, Apply(w, act).record)
    ensures w.claims <= Apply(w, act).claims
  {
  }

  // Once sealed, nothing is ever registered or counted again.
  lemma StepKeepsProofs(w: World, act: Act)
    requires Inv(w) && Enabled(w, act)
    ensures ProverInv(Apply(w, act))
    ensures w.record.Some? && w.record.value.launch == Sealed ==>
              && Apply(w, act).record == w.record && Apply(w, act).registered == w.registered
              && Apply(w, act).live <= w.live && Apply(w, act).completed == w.completed
  {
    StepKeepsRecord(w, act);
  }

  lemma StepKeeps(w: World, act: Act)
    requires Inv(w) && Enabled(w, act)
    ensures Inv(Apply(w, act)) && RecordMoves(w.record, Apply(w, act).record) && w.proofs <= Apply(w, act).proofs
  {
    StepKeepsRecord(w, act);
    StepKeepsProofs(w, act);
  }

  predicate Reaches(before: Launch, after: Launch) {
    Moves(before, after) || (before == Intended && after == Sealed)
  }

  // Over any run of any number of processes: the identity of an accepted record never changes, its worker
  // is set at most once, its launch only goes forward, and every proof once given stays true.
  lemma {:induction false} RunKeeps(w: World, acts: seq<Act>)
    requires Inv(w) && Legal(w, acts)
    ensures var later := Run(w, acts);
            && Inv(later) && w.proofs <= later.proofs
            && (w.record.Some? ==>
                  && later.record.Some?
                  && later.record.value.(launch := w.record.value.launch, worker := w.record.value.worker) == w.record.value
                  && Reaches(w.record.value.launch, later.record.value.launch)
                  && (w.record.value.worker.Some? ==> later.record.value.worker == w.record.value.worker))
    decreases |acts|
  {
    if acts != [] {
      StepKeeps(w, acts[0]);
      RunKeeps(Apply(w, acts[0]), acts[1..]);
    }
  }

  // However many workers were launched for it, at most one ever passes the claim.
  lemma AtMostOneClaim(acts: seq<Act>)
    requires Legal(INITIAL, acts)
    ensures |Run(INITIAL, acts).claims| <= 1
  {
    RunKeeps(INITIAL, acts);
  }

  // Once the record has left "intended" its fate is decided: no further claim passes, ever. So a launcher
  // that gave up and marked the launch unknown will not be surprised by a late worker.
  lemma {:induction false} FateDecided(w: World, acts: seq<Act>)
    requires Inv(w) && Legal(w, acts) && w.record.Some? && w.record.value.launch != Intended
    ensures Run(w, acts).claims == w.claims
    ensures w.record.value.launch == Unknown ==> Run(w, acts).record == w.record
    decreases |acts|
  {
    if acts != [] {
      StepKeeps(w, acts[0]);
      assert Apply(w, acts[0]).claims == w.claims;
      FateDecided(Apply(w, acts[0]), acts[1..]);
    }
  }

  // A stop proof is for good: after it no process is started, none of those registered is alive again,
  // and a run that counted a completed phase had registered one.
  lemma {:induction false} ProofStands(w: World, acts: seq<Act>, i: nat)
    requires Inv(w) && Legal(w, acts) && i < |w.proofs|
    ensures var later := Run(w, acts);
            && later.registered == w.proofs[i].listed
            && (forall group :: group in later.registered ==> group !in later.live)
            && (later.completed > 0 ==> later.registered != [])
            && later.record == Some(w.proofs[i].accepted)
    decreases |acts|
  {
    assert Proved(w, w.proofs[i]);
    if acts != [] {
      StepKeeps(w, acts[0]);
      StepKeepsProofs(w, acts[0]);
      ProofStands(Apply(w, acts[0]), acts[1..], i);
      assert Apply(w, acts[0]).proofs[i] == w.proofs[i];
    }
  }

  // The whole of a write under the lock, by a process that holds nothing else.
  function Locked(a: Id, write: Act): seq<Act> {
    [TakesLock(a), ReadsRecord(a), write, DropsLock(a)]
  }

  // What the write leaves, whoever makes it: the very function the store's own method answers to.
  function Written(record: Accepted, write: Act): Option<Accepted> {
    match write
    case Claims(_, executionId, worker) => ClaimOf(record, executionId, worker)
    case Seals(_, executionId, nonce) => SealOf(record, executionId, nonce)
    case MarksUnknown(_, executionId) => UnknownOf(record, executionId)
    case _ => None
  }

  // A transaction of the store is one of the world's: it can run exactly if the store's method would write, and
  // then leaves what the method leaves and the lock free.
  lemma StoreIsWorld(w: World, write: Act)
    requires w.lock == None && w.record.Some? && write.a !in w.dead
    requires write.Claims? || write.Seals? || write.MarksUnknown?
    requires write.Claims? ==> write.a !in w.stages
    requires write.Seals? ==> write.a in w.stages && w.stages[write.a] == Running
    ensures Legal(w, Locked(write.a, write)) <==> Written(w.record.value, write).Some?
    ensures Legal(w, Locked(write.a, write)) ==>
              Run(w, Locked(write.a, write)).record == Written(w.record.value, write) && Run(w, Locked(write.a, write)).lock == None
  {
    var acts := Locked(write.a, write);
    var w1 := Apply(w, acts[0]);
    var w2 := Apply(w1, acts[1]);
    assert Legal(w, acts) <==> Legal(w1, acts[1..]);
    assert acts[1..][1..] == acts[2..] && acts[2..][1..] == acts[3..] && acts[3..][1..] == [];
    assert Legal(w1, acts[1..]) <==> Legal(w2, acts[2..]);
    if Enabled(w2, write) {
      var w3 := Apply(w2, write);
      assert Legal(w3, acts[3..]);
      assert Run(w3, acts[3..]) == Apply(w3, acts[3]);
      assert Run(w2, acts[2..]) == Run(w3, acts[3..]);
      assert Run(w1, acts[1..]) == Run(w2, acts[2..]);
    }
  }

  datatype StoreError = Busy | ClaimLost

  /** The store and the prover themselves. The file operations are the fields; `live` is what the kernel knows. */
  class AcceptedStore {
    var record: Option<Accepted>
    var locked: bool
    var processes: Option<seq<Id>>
    var completed: Option<int>
    var leaseReleased: bool
    var live: set<Id>

    constructor ()
      ensures record == None && !locked && processes == Some([]) && completed == Some(0) && live == {}
    {
      record, locked, processes, completed, leaseReleased, live := None, false, Some([]), Some(0), false, {};
    }

    method ClaimAcceptedWorker(executionId: Id, worker: Worker) returns (r: Result<bool, StoreError>)
      modifies this`record
      ensures r.Err? <==> locked || old(record) == None
      ensures r == Ok(true) <==> !locked && old(record).Some? && ClaimOf(old(record).value, executionId, worker).Some?
      ensures record == if r == Ok(true) then ClaimOf(old(record).value, executionId, worker) else old(record)
    {
      if locked || record == None {
        return Err(Busy);
      }
      if record.value.launch != Intended {
        return Ok(false);
      }
      if record.value.executionId != executionId {
        return Ok(false);
      }
      record := Some(record.value.(launch := Claimed, worker := Some(worker)));
      r := Ok(true);
    }

    method SealAcceptedWorker(executionId: Id, nonce: Id) returns (r: Result<(), StoreError>)
      modifies this`record
      ensures r.Ok? <==> !locked && old(record).Some? && SealOf(old(record).value, executionId, nonce).Some?
      ensures record == if r.Ok? then SealOf(old(record).value, executionId, nonce) else old(record)
    {
      if locked || record == None {
        return Err(Busy);
      }
      if record.value.launch != Claimed || record.value.executionId != executionId
        || record.value.worker == None || record.value.worker.value.nonce != nonce {
        return Err(ClaimLost);
      }
      record := Some(record.value.(launch := Sealed));
      r := Ok(());
    }

    method MarkAcceptedUnknown(executionId: Id) returns (r: Result<(), StoreError>)
      modifies this`record
      ensures r.Ok? <==> !locked && old(record).Some?
      ensures record == if r.Ok? && UnknownOf(old(record).value, executionId).Some?
                        then UnknownOf(old(record).value, executionId) else old(record)
      // Whatever it found, this execution is no longer waiting to be claimed.
      ensures r.Ok? && record.value.executionId == executionId ==> record.value.launch != Intended
    {
      if locked || record == None {
        return Err(Busy);
      }
      if record.value.executionId == executionId && record.value.launch == Intended {
        record := Some(record.value.(launch := Unknown));
      }
      r := Ok(());
    }

    method RecordCompletedPhase() returns (ok: bool)
      modifies this`completed
      ensures ok <==> old(completed).Some?
      ensures completed == if ok then Some(old(completed).value + 1) else None
    {
      if completed == None {
        return false;
      }
      completed := Some(completed.value + 1);
      ok := true;
    }

    // While a sealed record is proved, groups can only end: StepKeepsProofs is why. Files may become unreadable.
    method GracePeriod()
      modifies this`processes, this`completed, this`leaseReleased, this`live
      ensures live <= old(live)
      ensures processes == old(processes) || processes == None
      ensures completed == old(completed) || completed == None
    {
      var ended: set<Id>, released: bool := *, *;
      live := live - ended;
      leaseReleased := released;
      if * {
        processes := None;
      }
      if * {
        completed := None;
      }
    }

    // Everything registered, as far as that can be read, is gone.
    predicate Quiet()
      reads this`processes, this`live
    {
      processes.Some? && forall i :: 0 <= i < |processes.value| ==> processes.value[i] !in live
    }

    method ProbeAll(groups: seq<Id>) returns (quiet: bool)
      ensures quiet <==> forall i :: 0 <= i < |groups| ==> groups[i] !in live
    {
      var k := 0;
      while k < |groups|
        invariant 0 <= k <= |groups|
        invariant forall i :: 0 <= i < k ==> groups[i] !in live
      {
        if groups[k] in live {
          return false;
        }
        k := k + 1;
      }
      quiet := true;
    }

    // Two rounds with a grace period between. A proof is given exactly of a sealed record with the lease
    // released and everything registered quiet in both, and something registered if any phase completed.
    method ProveStopped(accepted: Accepted) returns (proof: Option<seq<Id>>)
      modifies this`processes, this`completed, this`leaseReleased, this`live
      ensures proof.Some? <==>
                && accepted.launch == Sealed && accepted.worker.Some?
                && old(leaseReleased) && old(Quiet()) && leaseReleased && Quiet() && completed.Some?
                && (completed.value > 0 ==> processes != Some([]))
      ensures proof.Some? ==> processes == proof && old(processes) == proof
      ensures old(processes) == Some([]) && old(completed).Some? && old(completed).value > 0 ==> proof == None
    {
      if accepted.launch != Sealed || accepted.worker == None || !leaseReleased || processes == None {
        return None;
      }
      var quiet := ProbeAll(processes.value);
      if !quiet {
        return None;
      }
      GracePeriod();
      if !leaseReleased || processes == None {
        return None;
      }
      quiet := ProbeAll(processes.value);
      if !quiet {
        return None;
      }
      if completed == None || (completed.value > 0 && processes.value == []) {
        return None;
      }
      proof := processes;
    }
  }
}
