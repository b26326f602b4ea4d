/** What a saved-result recovery inherits: the accounting of each run that was settled for it, the chain of
    interrupted predecessors, and the funding each link was admitted with. References are resolved through
    a store, so a chain may be of any length or even cyclic; only the depth bound ends the recursion. */
module Lineage {
  import opened Basics
  import opened RunStates
  import opened UsageLedger

  // A grant or an authored limit: tokens may be unlimited, nothing else.
  datatype Grant = Grant(tokens: Option<int>, activeMs: int, attempts: int, sessions: int)

  datatype Dimension = Tokens | ActiveMs | Attempts | Sessions

  function Of(a: Amount, d: Dimension): int {
    match d case Tokens => a.tokens case ActiveMs => a.activeMs case Attempts => a.attempts case Sessions => a.sessions
  }

  function LimitOf(g: Grant, d: Dimension): Option<int> {
    match d
    case Tokens => g.tokens
    case ActiveMs => Some(g.activeMs)
    case Attempts => Some(g.attempts)
    case Sessions => Some(g.sessions)
  }

  datatype Identity = Identity(runId: Id, generation: int, work: Id, executionId: Id, envelopeHash: Id)

  datatype SettlementMethod = RemainingGrant | ApproximateFloor(floor: Option<int>)

  datatype Settlement = Settlement(
    how: SettlementMethod, runId: Id, generation: int, work: Id, highWater: int, report: Report, stop: StopProof,
    commandId: Id, principal: Id, chargedWork: Amount, chargedHandoff: Amount, at: int, released: bool, resolved: bool)

  datatype Receipt = Receipt(
    approximate: bool, commandId: Id, principal: Id, runId: Id, generation: int, work: Id,
    chargedWork: Amount, chargedHandoff: Amount, at: int)

  datatype Report = Report(runId: Id, generation: int, work: Id, outcome: RunStatus, highWater: int)

  datatype StopProof = StopProof(executionId: Id, generation: int, isolated: bool, leaseReleased: bool, sealed: bool)

  datatype Accounting = Accounting(
    report: Report, stop: StopProof, highWater: int, work: Amount, handoff: Amount,
    settlement: Option<Settlement>, receipt: Option<Receipt>)

  // ---- accounting ----

  predicate ReceiptBacks(m: Settlement, r: Receipt) {
    && m.commandId == r.commandId && m.principal == r.principal && r.approximate == m.how.ApproximateFloor?
    && r.runId == m.runId && r.generation == m.generation && r.work == m.work
    && r.chargedWork == m.chargedWork && r.chargedHandoff == m.chargedHandoff && r.at == m.at
    && m.released == m.resolved
  }

  function Charge(m: Settlement, bucket: Bucket): Amount {
    if bucket == Work then m.chargedWork else m.chargedHandoff
  }

  function Settled(a: Accounting, bucket: Bucket): Amount {
    if bucket == Work then a.work else a.handoff
  }

  function GrantFor(work: Grant, handoff: Grant, bucket: Bucket): Grant {
    if bucket == Work then work else handoff
  }

  // What a settlement may charge in one dimension on top of what was measured.
  predicate ChargeFits(m: Settlement, ceiling: Option<int>, measured: int, bucket: Bucket, d: Dimension) {
    match m.how
    case RemainingGrant => ceiling.Some? && Of(Charge(m, bucket), d) == Remaining(ceiling.value, measured)
    case ApproximateFloor(floor) =>
      Of(Charge(m, bucket), d) == if bucket == Work && d == Tokens && floor.Some? then floor.value else 0
  }

  ghost predicate AccountingValid(
    a: Accounting, identity: Identity, grantWork: Grant, grantHandoff: Grant, l: Ledger, outcome: RunStatus)
  {
    && a.report == Report(identity.runId, identity.generation, identity.work, outcome, a.highWater)
    && a.stop == StopProof(identity.executionId, identity.generation, true, true, true)
    && l.nextSeq == a.highWater + 1 && |l.events| == a.highWater
    && Identified(l.events, identity.runId, identity.generation) && Ordered(l.events)
    && if forall i :: 0 <= i < |l.events| ==> l.events[i].cumulative.Some? then
         && a.settlement == None && a.receipt == None
         && a.work == Baseline(l.events, Work) && a.handoff == Baseline(l.events, Handoff)
       else
         && a.settlement.Some? && a.receipt.Some?
         && var m := a.settlement.value;
         && m.runId == identity.runId && m.generation == identity.generation && m.work == identity.work
         && m.highWater == a.highWater && m.report == a.report && m.stop == a.stop && ReceiptBacks(m, a.receipt.value)
         && (m.how.ApproximateFloor? ==> grantWork.tokens.Some?)
         && forall bucket, d ::
              && ChargeFits(m, LimitOf(GrantFor(grantWork, grantHandoff, bucket), d), Of(Baseline(l.events, bucket), d), bucket, d)
              && Of(Settled(a, bucket), d) == Of(Baseline(l.events, bucket), d) + Of(Charge(m, bucket), d)
  }

  // Both buckets and all four dimensions, checked one by one.
  method CheckCharges(a: Accounting, m: Settlement, grantWork: Grant, grantHandoff: Grant, work: Amount, handoff: Amount)
    returns (ok: bool)
    ensures ok <==> forall bucket, d ::
              var measured := if bucket == Work then work else handoff;
              && ChargeFits(m, LimitOf(GrantFor(grantWork, grantHandoff, bucket), d), Of(measured, d), bucket, d)
              && Of(Settled(a, bucket), d) == Of(measured, d) + Of(Charge(m, bucket), d)
  {
    var buckets, dimensions := [Work, Handoff], [Tokens, ActiveMs, Attempts, Sessions];
    assert buckets[0] == Work && buckets[1] == Handoff;
    assert dimensions[0] == Tokens && dimensions[1] == ActiveMs && dimensions[2] == Attempts && dimensions[3] == Sessions;
    forall bucket: Bucket, d: Dimension
      ensures bucket in buckets && d in dimensions
    {
      assert bucket == Work || bucket == Handoff;
      assert d == Tokens || d == ActiveMs || d == Attempts || d == Sessions;
    }
    var i := 0;
    while i < |buckets|
      invariant 0 <= i <= |buckets|
      invariant forall bucket, d :: bucket in buckets[..i] ==>
                  var measured := if bucket == Work then work else handoff;
                  && ChargeFits(m, LimitOf(GrantFor(grantWork, grantHandoff, bucket), d), Of(measured, d), bucket, d)
                  && Of(Settled(a, bucket), d) == Of(measured, d) + Of(Charge(m, bucket), d)
    {
      var bucket, j := buckets[i], 0;
      var measured := if bucket == Work then work else handoff;
      while j < |dimensions|
        invariant 0 <= j <= |dimensions|
        invariant forall d :: d in dimensions[..j] ==>
                    && ChargeFits(m, LimitOf(GrantFor(grantWork, grantHandoff, bucket), d), Of(measured, d), bucket, d)
                    && Of(Settled(a, bucket), d) == Of(measured, d) + Of(Charge(m, bucket), d)
      {
        var d := dimensions[j];
        if !ChargeFits(m, LimitOf(GrantFor(grantWork, grantHandoff, bucket), d), Of(measured, d), bucket, d)
          || Of(Settled(a, bucket), d) != Of(measured, d) + Of(Charge(m, bucket), d) {
          return false;
        }
        j := j + 1;
      }
      assert dimensions[..j] == dimensions;
      assert buckets[..i + 1] == buckets[..i] + [bucket];
      i := i + 1;
    }
    assert buckets[..i] == buckets;
    ok := true;
  }

  method ValidateAccounting(
    a: Accounting, identity: Identity, grantWork: Grant, grantHandoff: Grant, l: Ledger, outcome: RunStatus) returns (ok: bool)
    ensures ok <==> AccountingValid(a, identity, grantWork, grantHandoff, l, outcome)
  {
    if a.report != Report(identity.runId, identity.generation, identity.work, outcome, a.highWater)
      || a.stop != StopProof(identity.executionId, identity.generation, true, true, true) {
      return false;
    }
    var replayed, work, handoff, unknown := Replay(l, identity.runId, identity.generation, a.highWater);
    if !replayed {
      return false;
    }
    if !unknown {
      return a.settlement == None && a.receipt == None && a.work == work && a.handoff == handoff;
    }
    if a.settlement == None || a.receipt == None {
      return false;
    }
    var m := a.settlement.value;
    if m.runId != identity.runId || m.generation != identity.generation || m.work != identity.work
      || m.highWater != a.highWater || m.report != a.report || m.stop != a.stop || !ReceiptBacks(m, a.receipt.value)
      || (m.how.ApproximateFloor? && grantWork.tokens == None) {
      return false;
    }
    ok := CheckCharges(a, m, grantWork, grantHandoff, work, handoff);
  }

  // Settling never books less than was measured; a fully measured run is booked exactly as measured, and
  // a person's settlement books the whole grant or what was measured, whichever is more.
  lemma SettledCoversMeasured(
    a: Accounting, identity: Identity, grantWork: Grant, grantHandoff: Grant, l: Ledger, outcome: RunStatus, bucket: Bucket, d: Dimension)
    requires AccountingValid(a, identity, grantWork, grantHandoff, l, outcome)
    requires a.settlement.Some? && a.settlement.value.how.ApproximateFloor? && a.settlement.value.how.floor.Some? ==>
               a.settlement.value.how.floor.value >= 0
    ensures Of(Settled(a, bucket), d) >= Of(Baseline(l.events, bucket), d)
    ensures a.settlement == None ==> Of(Settled(a, bucket), d) == Of(Baseline(l.events, bucket), d)
    ensures a.settlement.Some? && a.settlement.value.how.RemainingGrant? ==>
              var ceiling := LimitOf(GrantFor(grantWork, grantHandoff, bucket), d);
              && ceiling.Some?
              && Of(Settled(a, bucket), d) ==
                   if ceiling.value > Of(Baseline(l.events, bucket), d) then ceiling.value else Of(Baseline(l.events, bucket), d)
  {
    if a.settlement.Some? {
      var m := a.settlement.value;
      assert ChargeFits(m, LimitOf(GrantFor(grantWork, grantHandoff, bucket), d), Of(Baseline(l.events, bucket), d), bucket, d);
    }
  }

  // ---- funding ----

  datatype FundingKind = LegacyFreshGrant | OptionalCumulative

  datatype Funding = Funding(
    kind: FundingKind, authoredWork: Grant, authorityAgrees: bool, freshWork: Grant, freshHandoff: Grant,
    reservationAgrees: bool, inherited: Amount, fundedTotal: Grant)

  datatype Policy = Policy(authoredCeiling: Option<int>, inherited: Amount)

  predicate DimensionFunded(f: Funding, inherited: Amount, d: Dimension) {
    var granted, authored := LimitOf(f.freshWork, d), LimitOf(f.authoredWork, d);
    var total := if granted == None then None else Some(Of(inherited, d) + granted.value);
    var left := if authored == None then None
                else Some(Remaining(authored.value, if f.kind == OptionalCumulative then Of(inherited, d) else 0));
    && granted != Some(0)
    && (total.Some? ==> -MAX_SAFE <= total.value <= MAX_SAFE) && LimitOf(f.fundedTotal, d) == total
    && left != Some(0)
    && (left.Some? ==> granted.Some? && granted.value <= left.value)
  }

  predicate FundingValid(f: Funding, grantWork: Grant, grantHandoff: Grant, policy: Option<Policy>, inherited: Amount) {
    && f.authorityAgrees && f.freshWork == grantWork && f.freshHandoff == grantHandoff && f.reservationAgrees
    && f.inherited == inherited
    && (if f.kind == LegacyFreshGrant then policy == None
        else policy == Some(Policy(f.authoredWork.tokens, inherited)))
    && DimensionFunded(f, inherited, Tokens) && DimensionFunded(f, inherited, ActiveMs)
    && DimensionFunded(f, inherited, Attempts) && DimensionFunded(f, inherited, Sessions)
  }

  // A cumulative link never funds past what was authored: inherited plus fresh grant stay within every
  // finite authored dimension; a legacy link bounds the fresh grant alone.
  lemma FundedWithinAuthored(f: Funding, grantWork: Grant, grantHandoff: Grant, policy: Option<Policy>, inherited: Amount, d: Dimension)
    requires FundingValid(f, grantWork, grantHandoff, policy, inherited)
    requires LimitOf(f.authoredWork, d).Some?
    ensures LimitOf(grantWork, d).Some?
    ensures var granted, authored := LimitOf(grantWork, d).value, LimitOf(f.authoredWork, d).value;
            && (f.kind == OptionalCumulative ==> Of(inherited, d) + granted <= authored)
            && (f.kind == LegacyFreshGrant ==> granted <= authored)
            && LimitOf(f.fundedTotal, d) == Some(Of(inherited, d) + granted)
  {
  }

  // ---- the chain ----

  datatype Claim = Claim(
    runId: Id, generation: int, work: Id, command: Id, contractHash: Id, semantic: Id, recoveryOf: Id,
    packageHash: Id, admissionHash: Id, grantWork: Grant, grantHandoff: Grant, policy: Option<Policy>)

  datatype Admission = Admission(
    source: Identity, recoveryOf: Id, contractHash: Id, currentRunId: Id, claimRun: Id, claimGeneration: int, claimCommand: Id,
    accounting: Accounting, predecessor: Option<(Id, Id)>, funding: Funding)

  datatype StopReason = VerificationInterrupted | BeforeEntryInterrupted | OtherStop

  datatype Stage = StagePrepared(candidate: Id) | StageEntered(candidate: Id)

  // Everything the controller published about one interrupted recovery run.
  datatype Interrupted = Interrupted(
    claim: Claim, verifiesSaved: bool, executionId: Id, envelopeHash: Id, sealed: bool,
    status: RunStatus, reason: StopReason, statePackage: Id, stateRecoveryOf: Id, stateFunding: Funding,
    statePrepared: Option<Id>, stateEntry: Option<Id>, stage: Stage, stagePackage: Id,
    ledger: Ledger, entryObserved: bool, processesRegistered: int,
    accounting: Accounting, packageSource: Id, packageHash: Id, admissionHash: Id, admission: Admission)

  function WorkCount(events: seq<Event>): nat {
    if events == [] then 0
    else WorkCount(events[..|events| - 1]) + if events[|events| - 1].bucket == Work then 1 else 0
  }

  // The interruption is one of two, each with its own stage; before entry nothing can have been spent.
  predicate StageFits(r: Interrupted) {
    match r.reason
    case BeforeEntryInterrupted =>
      && r.stage.StagePrepared? && r.statePrepared == Some(r.stage.candidate) && r.stateEntry == None
      && r.processesRegistered == 0 && WorkCount(r.ledger.events) == 1 && r.entryObserved
      && r.accounting.work == Amount(0, 0, 1, 1)
    case VerificationInterrupted => r.stage.StageEntered? && r.stateEntry == Some(r.stage.candidate)
    case OtherStop => false
  }

  // The record really is the predecessor the successor's admission names, for the same saved result.
  predicate LinkFits(claim: Claim, admission: Admission, packageSource: Id, r: Interrupted) {
    && admission.predecessor.Some? && r.claim.runId == admission.predecessor.value.0
    && r.verifiesSaved && r.claim.contractHash == claim.contractHash && r.claim.recoveryOf == claim.recoveryOf
    && r.claim.semantic == claim.semantic && r.claim.work == claim.work
    && r.sealed && r.status == BlockedWaitingHuman
    && r.statePackage == r.claim.packageHash && r.stateRecoveryOf == claim.recoveryOf && r.stagePackage == r.claim.packageHash
    && StageFits(r)
    && r.packageSource == packageSource && r.packageHash == r.claim.packageHash && r.admissionHash == r.claim.admissionHash
    && r.admission.source == admission.source && r.admission.recoveryOf == claim.recoveryOf
    && r.admission.contractHash == claim.contractHash
    && r.admission.claimRun == r.claim.runId && r.admission.claimGeneration == r.claim.generation
    && r.admission.claimCommand == r.claim.command
    && r.admission.currentRunId == (if r.admission.predecessor == None then r.admission.source.runId else r.admission.predecessor.value.0)
    && r.stateFunding == r.admission.funding
  }

  ghost predicate LinkAccounted(r: Interrupted) {
    AccountingValid(r.accounting, Identity(r.claim.runId, r.claim.generation, r.claim.work, r.executionId, r.envelopeHash),
                    r.claim.grantWork, r.claim.grantHandoff, r.ledger, r.status)
  }

  function AddWork(a: Amount, b: Amount): Amount {
    Amount(a.tokens + b.tokens, a.activeMs + b.activeMs, a.attempts + b.attempts, a.sessions + b.sessions)
  }

  predicate SafeSum(a: Amount) {
    forall d :: -MAX_SAFE <= Of(a, d) <= MAX_SAFE
  }

  datatype LineageError = TooLarge | PredecessorInvalid | FundingInvalid | SumUnsafe

  const DEPTH_LIMIT := 100

  // The recursion over predecessors, deepest first.
  ghost function Inherited(
    store: map<Id, Interrupted>, claim: Claim, admission: Admission, packageSource: Id, base: Amount, depth: nat): Result<Amount, LineageError>
    decreases DEPTH_LIMIT + 1 - depth
  {
    if depth > DEPTH_LIMIT then Err(TooLarge)
    else if admission.predecessor == None then Ok(base)
    else if admission.predecessor.value.1 !in store then Err(PredecessorInvalid)
    else
      var r := store[admission.predecessor.value.1];
      if !LinkFits(claim, admission, packageSource, r) || !LinkAccounted(r) then Err(PredecessorInvalid)
      else
        var before := Inherited(store, r.claim, r.admission, packageSource, base, depth + 1);
        if before.Err? then before
        else if !FundingValid(r.admission.funding, r.claim.grantWork, r.claim.grantHandoff, r.claim.policy, before.value) then Err(FundingInvalid)
        else if !SafeSum(AddWork(before.value, r.accounting.work)) then Err(SumUnsafe)
        else Ok(AddWork(before.value, r.accounting.work))
  }

  // ---- the same chain as a list, oldest last ----

  predicate IsChain(store: map<Id, Interrupted>, admission: Admission, links: seq<Interrupted>)
    decreases |links|
  {
    if links == [] then admission.predecessor == None
    else
      && admission.predecessor.Some? && admission.predecessor.value.1 in store
      && store[admission.predecessor.value.1] == links[0]
      && IsChain(store, links[0].admission, links[1..])
  }

  // The work every link settled, on top of what the source brought.
  function ChainTotal(base: Amount, links: seq<Interrupted>): Amount {
    if links == [] then base else AddWork(ChainTotal(base, links[1..]), links[0].accounting.work)
  }

  // Every link fits its successor, is accounted for, was funded for exactly what had been used before it,
  // and leaves a safe total.
  ghost predicate ChainSound(claim: Claim, admission: Admission, packageSource: Id, base: Amount, links: seq<Interrupted>)
    decreases |links|
  {
    links == [] ||
    ( && LinkFits(claim, admission, packageSource, links[0]) && LinkAccounted(links[0])
      && ChainSound(links[0].claim, links[0].admission, packageSource, base, links[1..])
      && FundingValid(links[0].admission.funding, links[0].claim.grantWork, links[0].claim.grantHandoff, links[0].claim.policy,
                      ChainTotal(base, links[1..]))
      && SafeSum(ChainTotal(base, links)) )
  }

  // The recursion accepts exactly the sound chains of at most a hundred links, and answers their total.
  lemma {:induction false} InheritedExactly(
    store: map<Id, Interrupted>, claim: Claim, admission: Admission, packageSource: Id, base: Amount, depth: nat, links: seq<Interrupted>)
    requires IsChain(store, admission, links)
    ensures Inherited(store, claim, admission, packageSource, base, depth).Ok? <==>
              depth + |links| <= DEPTH_LIMIT && ChainSound(claim, admission, packageSource, base, links)
    ensures Inherited(store, claim, admission, packageSource, base, depth).Ok? ==>
              Inherited(store, claim, admission, packageSource, base, depth).value == ChainTotal(base, links)
    decreases |links|
  {
    if depth <= DEPTH_LIMIT && links != [] {
      var r, rest := links[0], links[1..];
      InheritedExactly(store, r.claim, r.admission, packageSource, base, depth + 1, rest);
      assert ChainTotal(base, links) == AddWork(ChainTotal(base, rest), r.accounting.work);
    }
  }

  // A store in which the predecessors never end is refused.
  lemma EndlessRefused(
    store: map<Id, Interrupted>, claim: Claim, admission: Admission, packageSource: Id, base: Amount)
    requires forall links :: |links| <= DEPTH_LIMIT ==> !IsChain(store, admission, links)
    ensures Inherited(store, claim, admission, packageSource, base, 0).Err?
  {
    if Inherited(store, claim, admission, packageSource, base, 0).Ok? {
      var links := ChainOf(store, claim, admission, packageSource, base, 0);
    }
  }

  lemma {:induction false} ChainOf(
    store: map<Id, Interrupted>, claim: Claim, admission: Admission, packageSource: Id, base: Amount, depth: nat) returns (links: seq<Interrupted>)
    requires Inherited(store, claim, admission, packageSource, base, depth).Ok?
    ensures IsChain(store, admission, links) && depth + |links| <= DEPTH_LIMIT
    decreases DEPTH_LIMIT + 1 - depth
  {
    if admission.predecessor == None {
      links := [];
    } else {
      var r := store[admission.predecessor.value.1];
      var rest := ChainOf(store, r.claim, r.admission, packageSource, base, depth + 1);
      links := [r] + rest;
      assert links[1..] == rest;
    }
  }

  // ---- the whole admission ----

  // What loading a saved result checks of its lineage: the source's own account, the chain, the funding.
  ghost predicate LineageAdmitted(
    store: map<Id, Interrupted>, claim: Claim, admission: Admission, packageSource: Id,
    sourceInherited: Amount, sourceGrantWork: Grant, sourceGrantHandoff: Grant, sourceLedger: Ledger)
  {
    && AccountingValid(admission.accounting, admission.source, sourceGrantWork, sourceGrantHandoff, sourceLedger, Failed)
    && var base := AddWork(sourceInherited, admission.accounting.work);
    && SafeSum(base)
    && var inherited := Inherited(store, claim, admission, packageSource, base, 0);
    && inherited.Ok?
    && FundingValid(admission.funding, claim.grantWork, claim.grantHandoff, claim.policy, inherited.value)
  }

  // Along every accepted chain the usage a recovery inherits is the source's own inheritance, plus the
  // source's settled work, plus the settled work of every predecessor; and the same holds of every
  // predecessor's own funding.
  lemma InheritanceConserved(
    store: map<Id, Interrupted>, claim: Claim, admission: Admission, packageSource: Id,
    sourceInherited: Amount, sourceGrantWork: Grant, sourceGrantHandoff: Grant, sourceLedger: Ledger)
    returns (links: seq<Interrupted>)
    requires LineageAdmitted(store, claim, admission, packageSource, sourceInherited, sourceGrantWork, sourceGrantHandoff, sourceLedger)
    ensures var base := AddWork(sourceInherited, admission.accounting.work);
            && |links| <= DEPTH_LIMIT && IsChain(store, admission, links)
            && ChainSound(claim, admission, packageSource, base, links)
            && admission.funding.inherited == ChainTotal(base, links) && SafeSum(admission.funding.inherited)
            && forall i :: 0 <= i < |links| ==>
                 links[i].admission.funding.inherited == ChainTotal(base, links[i + 1..]) && LinkAccounted(links[i])
  {
    var base := AddWork(sourceInherited, admission.accounting.work);
    links := ChainOf(store, claim, admission, packageSource, base, 0);
    InheritedExactly(store, claim, admission, packageSource, base, 0, links);
    forall i | 0 <= i < |links|
      ensures links[i].admission.funding.inherited == ChainTotal(base, links[i + 1..]) && LinkAccounted(links[i])
    {
      SoundAt(claim, admission, packageSource, base, links, i);
    }
  }

  lemma {:induction false} SoundAt(claim: Claim, admission: Admission, packageSource: Id, base: Amount, links: seq<Interrupted>, i: nat)
    requires ChainSound(claim, admission, packageSource, base, links) && i < |links|
    ensures links[i].admission.funding.inherited == ChainTotal(base, links[i + 1..]) && LinkAccounted(links[i])
    ensures FundingValid(links[i].admission.funding, links[i].claim.grantWork, links[i].claim.grantHandoff, links[i].claim.policy,
                         ChainTotal(base, links[i + 1..]))
    decreases |links|
  {
    if i > 0 {
      SoundAt(links[0].claim, links[0].admission, packageSource, base, links[1..], i - 1);
      assert links[1..][i..] == links[i + 1..];
    }
  }

  // On every accepted chain a cumulative link was granted no more than its author left after everything used
  // before it; and if it then kept within its grant, so does the chain's total up to and with it.
  lemma ChainWithinAuthored(
    claim: Claim, admission: Admission, packageSource: Id, base: Amount, links: seq<Interrupted>, i: nat, d: Dimension)
    requires ChainSound(claim, admission, packageSource, base, links) && i < |links|
    requires var f := links[i].admission.funding; f.kind == OptionalCumulative && LimitOf(f.authoredWork, d).Some?
    ensures var link := links[i];
            var authored := LimitOf(link.admission.funding.authoredWork, d).value;
            && LimitOf(link.claim.grantWork, d).Some?
            && var granted := LimitOf(link.claim.grantWork, d).value;
            && Of(ChainTotal(base, links[i + 1..]), d) + granted <= authored
            && (Of(link.accounting.work, d) <= granted ==> Of(ChainTotal(base, links[i..]), d) <= authored)
  {
    SoundAt(claim, admission, packageSource, base, links, i);
    var link := links[i];
    FundedWithinAuthored(link.admission.funding, link.claim.grantWork, link.claim.grantHandoff, link.claim.policy,
                         ChainTotal(base, links[i + 1..]), d);
    assert links[i..][0] == link && links[i..][1..] == links[i + 1..];
  }

  // Component by component, the total is the base plus the sum over the links.
  function WorkSum(links: seq<Interrupted>, d: Dimension): int {
    if links == [] then 0 else Of(links[0].accounting.work, d) + WorkSum(links[1..], d)
  }

  lemma {:induction false} TotalIsSum(base: Amount, links: seq<Interrupted>, d: Dimension)
    ensures Of(ChainTotal(base, links), d) == Of(base, d) + WorkSum(links, d)
  {
    if links != [] {
      TotalIsSum(base, links[1..], d);
    }
  }
}
