/** Applying accepted agent-detection changes to the configured agents table: an immutable intent, one
    compare-and-rename, an immutable receipt. A crash may follow any durable step and somebody else may
    edit the table between any two. sha256 is taken as injective, so a digest carries the bytes it digests. */
module AgentsUpdate {
  import opened Basics

  datatype Installation = Installation(kind: Id, command: seq<Id>, version: Id, extras: Id)

  type Table = map<Id, Installation>

  // A table file: what it parses to, if anything, and which of the texts that parse so it is.
  datatype Bytes = Bytes(parsed: Option<Table>, spelling: int)

  datatype Digest = Digest(of: Bytes)

  // The one text the program itself writes for a table.
  function Rendered(table: Table): Bytes {
    Bytes(Some(table), 0)
  }

  datatype ChangeKind = VersionChange | PathChange | Addition

  datatype Change = Change(
    changeId: Id, kind: ChangeKind, installationId: Id, command: seq<Id>, version: Id,
    installation: Option<Installation>, unavailable: bool)

  datatype InstalledRow = InstalledRow(id: Id, kind: Id, command: seq<Id>)

  datatype Preview = Preview(base: Digest, installed: seq<InstalledRow>, changes: seq<Change>)

  datatype Request = Request(opId: Id, digest: Id, previewId: Id, base: Digest, accepted: seq<Id>)

  datatype Receipt = Receipt(
    opId: Id, digest: Id, previewId: Id, accepted: seq<Id>, before: Digest, after: Digest,
    beforeTable: Table, afterTable: Table)

  datatype Intent = Intent(request: Request, receipt: Receipt)

  datatype Temporary = Partial | Full(bytes: Bytes)

  datatype Refusal = Invalid | Conflict | Stale

  datatype Outcome = Done(receipt: Receipt) | Refused(reason: Refusal) | Crashed

  predicate Distinct(ids: seq<Id>) {
    forall i, j :: 0 <= i < j < |ids| ==> ids[i] != ids[j]
  }

  function FindChange(changes: seq<Change>, changeId: Id): Option<Change> {
    if changes == [] then None
    else if changes[0].changeId == changeId then Some(changes[0])
    else FindChange(changes[1..], changeId)
  }

  function FindRow(rows: seq<InstalledRow>, id: Id): Option<InstalledRow> {
    if rows == [] then None else if rows[0].id == id then Some(rows[0]) else FindRow(rows[1..], id)
  }

  // The change each accepted id names, in the order accepted.
  function Selected(preview: Preview, accepted: seq<Id>): Option<seq<Change>> {
    if accepted == [] then Some([])
    else
      var front := Selected(preview, accepted[..|accepted| - 1]);
      var last := FindChange(preview.changes, accepted[|accepted| - 1]);
      if front == None || last == None then None else Some(front.value + [last.value])
  }

  function ApplyChange(table: Table, change: Change): Table {
    match change.kind
    case Addition => if change.installation == None then table else table[change.installationId := change.installation.value]
    case VersionChange =>
      if change.installationId !in table then table
      else table[change.installationId := table[change.installationId].(version := change.version)]
    case PathChange =>
      if change.installationId !in table then table
      else table[change.installationId := table[change.installationId].(command := change.command, version := change.version)]
  }

  function Applied(table: Table, changes: seq<Change>): Table {
    if changes == [] then table
    else ApplyChange(Applied(table, changes[..|changes| - 1]), changes[|changes| - 1])
  }

  // A change that fits the table the preview was made from.
  predicate Fits(table: Table, preview: Preview, change: Change) {
    && !change.unavailable
    && if change.kind == Addition then change.installationId !in table && change.installation.Some?
       else
         && change.installationId in table
         && var row := FindRow(preview.installed, change.installationId);
            row.Some? && row.value.kind == table[change.installationId].kind
            && row.value.command == table[change.installationId].command
  }

  predicate Acceptable(table: Table, preview: Preview, changes: seq<Change>) {
    && (forall i, j :: 0 <= i < j < |changes| ==> changes[i].installationId != changes[j].installationId)
    && (forall i :: 0 <= i < |changes| ==> Fits(table, preview, changes[i]))
  }

  lemma {:induction false} AppliedElsewhere(table: Table, changes: seq<Change>, id: Id)
    requires forall i :: 0 <= i < |changes| ==> changes[i].installationId != id
    ensures (id in Applied(table, changes)) == (id in table)
    ensures id in table ==> Applied(table, changes)[id] == table[id]
  {
    if changes != [] {
      AppliedElsewhere(table, changes[..|changes| - 1], id);
    }
  }

  // The row an accepted change leaves behind, from the original table alone.
  function Row(table: Table, change: Change): Option<Installation> {
    if change.kind == Addition then change.installation
    else if change.installationId !in table then None
    else if change.kind == VersionChange then Some(table[change.installationId].(version := change.version))
    else Some(table[change.installationId].(command := change.command, version := change.version))
  }

  // What the new table says, row by row: each accepted change rewrites its own row of the original
  // table and nothing else moves (AppliedElsewhere), so the order of acceptance does not matter.
  lemma {:induction false} AppliedExactly(table: Table, preview: Preview, changes: seq<Change>, i: nat)
    requires Acceptable(table, preview, changes) && i < |changes|
    ensures changes[i].installationId in Applied(table, changes)
    ensures Row(table, changes[i]) == Some(Applied(table, changes)[changes[i].installationId])
  {
    var n := |changes| - 1;
    var front := changes[..n];
    assert forall k :: 0 <= k < n ==> front[k] == changes[k];
    assert Fits(table, preview, changes[i]);
    if i == n {
      AppliedElsewhere(table, front, changes[n].installationId);
    } else {
      AppliedExactly(table, preview, front, i);
    }
  }

  function UsedBy(changes: seq<Change>): set<Id> {
    if changes == [] then {} else UsedBy(changes[..|changes| - 1]) + {changes[|changes| - 1].installationId}
  }

  lemma {:induction false} UsedExactly(changes: seq<Change>)
    ensures forall i :: 0 <= i < |changes| ==> changes[i].installationId in UsedBy(changes)
    ensures forall id :: id in UsedBy(changes) ==> exists i :: 0 <= i < |changes| && changes[i].installationId == id
  {
    if changes != [] {
      var front := changes[..|changes| - 1];
      UsedExactly(front);
      assert forall i :: 0 <= i < |front| ==> front[i] == changes[i];
    }
  }

  // One accepted change against the table built so far. Whatever the fresh probes answer other than
  // "unchanged" refuses, and then the run was not calm.
  method ApplyOne(next: Table, preview: Preview, change: Change) returns (r: Result<Table, Refusal>, calm: bool)
    ensures r.Ok? ==> Fits(next, preview, change) && r.value == ApplyChange(next, change)
    ensures if calm then r.Ok? <==> Fits(next, preview, change) else r.Err?
  {
    calm := true;
    if change.unavailable {
      return Err(Invalid), calm;
    }
    if * {
      return Err(Stale), false;
    }
    if change.kind == Addition {
      if change.installationId in next || change.installation == None {
        return Err(Conflict), calm;
      }
      return Ok(next[change.installationId := change.installation.value]), calm;
    }
    if change.installationId !in next {
      return Err(Stale), calm;
    }
    var frozen := next[change.installationId];
    var row := FindRow(preview.installed, change.installationId);
    if row == None || frozen.kind != row.value.kind || frozen.command != row.value.command {
      return Err(Stale), calm;
    }
    r := Ok(next[change.installationId :=
      if change.kind == VersionChange then frozen.(version := change.version)
      else frozen.(command := change.command, version := change.version)]);
  }

  // The loop over the accepted ids.
  method BuildAfter(original: Table, preview: Preview, accepted: seq<Id>)
    returns (r: Result<Table, Refusal>, calm: bool)
    ensures r.Ok? ==> IsAfter(original, preview, accepted, r.value)
    ensures calm ==>
              (r.Ok? <==> var changes := Selected(preview, accepted);
                          changes.Some? && Acceptable(original, preview, changes.value))
  {
    var next, used: set<Id>, k := original, {}, 0;
    calm := true;
    ghost var done: seq<Change> := [];
    while k < |accepted|
      invariant 0 <= k <= |accepted|
      invariant Selected(preview, accepted[..k]) == Some(done) && |done| == k
      invariant Acceptable(original, preview, done)
      invariant used == UsedBy(done)
      invariant next == Applied(original, done)
      invariant calm
    {
      var found := FindChange(preview.changes, accepted[k]);
      assert accepted[..k + 1][..k] == accepted[..k];
      if found == None {
        SelectedPrefix(preview, accepted, k + 1);
        return Err(Conflict), calm;
      }
      var change := found.value;
      UsedExactly(done);
      assert Selected(preview, accepted[..k + 1]) == Some(done + [change]);
      if change.installationId in used {
        NotAcceptable(original, preview, accepted, k + 1, done, change);
        return Err(Conflict), calm;
      }
      used := used + {change.installationId};
      AppliedElsewhere(original, done, change.installationId);
      r, calm := ApplyOne(next, preview, change);
      if r.Err? {
        if calm {
          NotAcceptable(original, preview, accepted, k + 1, done, change);
        }
        return;
      }
      next := r.value;
      Extends(original, preview, done, change);
      done := done + [change];
      k := k + 1;
    }
    assert accepted[..k] == accepted;
    if * {
      return Err(Invalid), false;
    }
    r := Ok(next);
  }

  predicate IsAfter(original: Table, preview: Preview, accepted: seq<Id>, after: Table) {
    var changes := Selected(preview, accepted);
    changes.Some? && Acceptable(original, preview, changes.value) && after == Applied(original, changes.value)
  }

  lemma Extends(table: Table, preview: Preview, done: seq<Change>, change: Change)
    requires Acceptable(table, preview, done) && Fits(table, preview, change)
    requires change.installationId !in UsedBy(done)
    ensures Acceptable(table, preview, done + [change])
    ensures UsedBy(done + [change]) == UsedBy(done) + {change.installationId}
    ensures Applied(table, done + [change]) == ApplyChange(Applied(table, done), change)
  {
    UsedExactly(done);
    assert (done + [change])[..|done|] == done;
  }

  lemma {:induction false} SelectedPrefix(preview: Preview, accepted: seq<Id>, k: nat)
    requires k <= |accepted|
    ensures Selected(preview, accepted).Some? ==>
              Selected(preview, accepted[..k]).Some?
              && |Selected(preview, accepted).value| == |accepted|
              && Selected(preview, accepted[..k]).value == Selected(preview, accepted).value[..k]
    decreases |accepted|
  {
    if k == |accepted| {
      assert accepted[..k] == accepted;
      if accepted != [] {
        SelectedPrefix(preview, accepted[..k - 1], k - 1);
      }
    } else {
      assert accepted[..|accepted| - 1][..k] == accepted[..k];
      SelectedPrefix(preview, accepted[..|accepted| - 1], k);
      SelectedPrefix(preview, accepted[..|accepted| - 1], |accepted| - 1);
    }
  }

  // A change that clashes or does not fit spoils the whole acceptance.
  lemma NotAcceptable(table: Table, preview: Preview, accepted: seq<Id>, k: nat, done: seq<Change>, change: Change)
    requires 0 < k <= |accepted|
    requires Selected(preview, accepted[..k]) == Some(done + [change]) && |done| == k - 1
    requires (exists i :: 0 <= i < |done| && done[i].installationId == change.installationId) || !Fits(table, preview, change)
    ensures Selected(preview, accepted).Some? ==> !Acceptable(table, preview, Selected(preview, accepted).value)
  {
    SelectedPrefix(preview, accepted, k);
    if Selected(preview, accepted).Some? {
      var all := Selected(preview, accepted).value;
      assert all[k - 1] == (done + [change])[k - 1] == change;
      forall i | 0 <= i < |done|
        ensures all[i] == done[i]
      {
        assert all[..k][i] == (done + [change])[i];
      }
    }
  }

  predicate AllAvailable(changes: Option<seq<Change>>) {
    changes.Some? && forall i :: 0 <= i < |changes.value| ==> !changes.value[i].unavailable
  }

  // The probes repeated before an interrupted replacement is completed.
  method Recheck(preview: Preview, accepted: seq<Id>) returns (verdict: Option<Refusal>, calm: bool)
    ensures calm ==> (verdict == None <==> AllAvailable(Selected(preview, accepted)))
  {
    var k := 0;
    ghost var done: seq<Change> := [];
    while k < |accepted|
      invariant 0 <= k <= |accepted|
      invariant Selected(preview, accepted[..k]) == Some(done) && |done| == k
      invariant forall i :: 0 <= i < k ==> !done[i].unavailable
    {
      var found := FindChange(preview.changes, accepted[k]);
      assert accepted[..k + 1][..k] == accepted[..k];
      SelectedPrefix(preview, accepted, k + 1);
      if found == None {
        return Some(Conflict), true;
      }
      assert Selected(preview, accepted[..k + 1]) == Some(done + [found.value]);
      if found.value.unavailable {
        assert (done + [found.value])[k].unavailable;
        return Some(Invalid), true;
      }
      if * {
        return Some(Stale), false;
      }
      done := done + [found.value];
      k := k + 1;
    }
    assert accepted[..k] == accepted;
    return None, true;
  }

  // ---- the durable state ----

  datatype Replacement = Replacement(opId: Id, before: Bytes, after: Bytes)

  ghost predicate Keeps<K, V>(earlier: map<K, V>, later: map<K, V>) {
    forall k :: k in earlier ==> k in later && later[k] == earlier[k]
  }

  // An intent agrees with the request it was made for, and its after-table is the preview's accepted
  // changes applied to the table its before-digest is the digest of.
  predicate Sound(previews: map<Id, Preview>, opId: Id, intent: Intent) {
    var request := intent.request;
    var receipt := intent.receipt;
    && request.opId == receipt.opId == opId
    && receipt.digest == request.digest && receipt.previewId == request.previewId
    && receipt.accepted == request.accepted && receipt.before == request.base
    && receipt.after == Digest(Rendered(receipt.afterTable))
    && receipt.before.of.parsed == Some(receipt.beforeTable)
    && request.previewId in previews && previews[request.previewId].base == request.base
    && IsAfter(receipt.beforeTable, previews[request.previewId], request.accepted, receipt.afterTable)
  }

  /** The table file and its private updates directory. `held` and `replacements` are the history the
      properties speak of: every content the table was seen to hold, and every rename over it. */
  class UpdateStore {
    var table: Bytes
    var previews: map<Id, Preview>
    var intents: map<Id, Intent>
    var receipts: map<Id, Receipt>
    var temporaries: map<(Id, Id), Temporary>
    ghost var held: set<Bytes>
    ghost var replacements: seq<Replacement>

    ghost predicate Valid()
      reads this
    {
      table in held && IntentsSound() && ReceiptsEarned() && ReplacementsMeant() && TemporariesOwned()
    }

    ghost predicate IntentsSound()
      reads this`previews, this`intents
    {
      forall op :: op in intents ==> Sound(previews, op, intents[op])
    }

    // A receipt is its intent's, and the table has held what it says.
    ghost predicate ReceiptsEarned()
      reads this`intents, this`receipts, this`held
    {
      forall op :: op in receipts ==>
        op in intents && receipts[op] == intents[op].receipt && Rendered(receipts[op].afterTable) in held
    }

    ghost predicate ReplacementsMeant()
      reads this`intents, this`replacements
    {
      forall i :: 0 <= i < |replacements| ==> Meant(replacements[i])
    }

    // A rename over the table that some intent announced: exactly its before-bytes, exactly its after-bytes.
    ghost predicate Meant(r: Replacement)
      reads this`intents
    {
      && r.opId in intents
      && Digest(r.before) == intents[r.opId].receipt.before
      && r.after == Rendered(intents[r.opId].receipt.afterTable)
    }

    ghost predicate TemporariesOwned()
      reads this`intents, this`temporaries
    {
      forall k :: k in temporaries ==> k.0 in intents && k.1 == intents[k.0].request.digest
    }

    // So every rename there ever was turned one table into the same table with its request's accepted
    // changes made, row by row, and no other row touched.
    lemma ReplacementSays(n: nat, id: Id)
      requires Valid() && n < |replacements|
      ensures var r := replacements[n];
              var intent := intents[r.opId];
              && r.before.parsed.Some? && r.after.parsed.Some?
              && intent.request.previewId in previews
              && var changes := Selected(previews[intent.request.previewId], intent.request.accepted);
              && changes.Some?
              && (forall i :: 0 <= i < |changes.value| && changes.value[i].installationId == id ==>
                    id in r.after.parsed.value
                    && Row(r.before.parsed.value, changes.value[i]) == Some(r.after.parsed.value[id]))
              && ((forall i :: 0 <= i < |changes.value| ==> changes.value[i].installationId != id) ==>
                    (id in r.after.parsed.value) == (id in r.before.parsed.value)
                    && (id in r.before.parsed.value ==> r.after.parsed.value[id] == r.before.parsed.value[id]))
    {
      var r := replacements[n];
      var intent := intents[r.opId];
      assert Meant(r) && Sound(previews, r.opId, intent);
      var table := r.before.parsed.value;
      var preview := previews[intent.request.previewId];
      var changes := Selected(preview, intent.request.accepted).value;
      if i: nat :| i < |changes| && changes[i].installationId == id {
        forall j | 0 <= j < |changes| && changes[j].installationId == id
          ensures id in r.after.parsed.value && Row(table, changes[j]) == Some(r.after.parsed.value[id])
        {
          AppliedExactly(table, preview, changes, j);
        }
      } else {
        AppliedElsewhere(table, changes, id);
      }
    }

    // Nothing durable is ever taken back.
    twostate predicate Grew()
      reads this
    {
      && Keeps(old(previews), previews) && Keeps(old(intents), intents) && Keeps(old(receipts), receipts)
      && old(held) <= held && old(replacements) <= replacements
    }

    twostate predicate ReplacedOnceAtMost(opId: Id)
      reads this
    {
      || replacements == old(replacements)
      || (|replacements| == |old(replacements)| + 1 && replacements[|old(replacements)|].opId == opId)
    }

    constructor (initial: Bytes)
      ensures Valid() && table == initial && intents == map[] && receipts == map[] && replacements == []
    {
      table, previews, intents, receipts, temporaries := initial, map[], map[], map[], map[];
      held, replacements := {initial}, [];
    }

    // Between two steps: the process may die or find its lock gone, anybody may edit the table, and new previews may appear.
    method Interfere() returns (crash: bool, ghost calm: bool)
      requires Valid()
      modifies this`table, this`previews, this`held
      ensures Valid() && Keeps(old(previews), previews) && held == old(held) + {table}
      ensures calm ==> !crash && table == old(table) && previews == old(previews)
    {
      crash, calm := false, true;
      if * {
        var edited: Bytes := *;
        var more: map<Id, Preview> := *;
        crash := *;
        calm := false;
        table := edited;
        previews := more + previews;
        held := held + {table};
      }
    }

    // The final comparison and the rename, taken as one step. On a mismatch the temporary is discarded.
    method CompareAndRename(key: (Id, Id), expected: Bytes) returns (failure: Option<Outcome>)
      requires Valid() && key in temporaries && temporaries[key].Full?
      requires Meant(Replacement(key.0, expected, temporaries[key].bytes))
      modifies this`table, this`held, this`replacements, this`temporaries
      ensures Valid() && temporaries == old(temporaries) - {key}
      ensures old(table) == expected ==>
                && failure == None && table == old(temporaries[key].bytes) && held == old(held) + {table}
                && replacements == old(replacements) + [Replacement(key.0, old(table), table)]
      ensures old(table) != expected ==>
                && failure.Some? && failure.value.Refused?
                && table == old(table) && held == old(held) && replacements == old(replacements)
    {
      if table != expected {
        temporaries := temporaries - {key};
        return Some(Refused(if table.parsed == None then Invalid else Stale));
      }
      var content := temporaries[key].bytes;
      replacements := replacements + [Replacement(key.0, table, content)];
      table := content;
      held := held + {table};
      temporaries := temporaries - {key};
      failure := None;
    }

    // Creates the operation's temporary and fills it; either step may be the last.
    method WriteTemporary(request: Request, bytes: Bytes) returns (crash: bool, ghost calm: bool)
      requires Valid() && request.opId in intents && intents[request.opId].request == request
      requires (request.opId, request.digest) !in temporaries
      modifies this`table, this`previews, this`held, this`temporaries
      ensures Valid() && Keeps(old(previews), previews) && old(held) <= held
      ensures !crash ==>
                (request.opId, request.digest) in temporaries && temporaries[(request.opId, request.digest)] == Full(bytes)
      ensures calm ==> !crash && table == old(table) && previews == old(previews)
    {
      var key := (request.opId, request.digest);
      ghost var c;
      temporaries := temporaries[key := Partial];
      crash, calm := Interfere();
      if crash {
        return;
      }
      temporaries := temporaries[key := Full(bytes)];
      crash, c := Interfere();
      calm := calm && c;
    }

    // The whole durable replacement.
    method ReplaceTable(request: Request, bytes: Bytes, expected: Bytes) returns (failure: Option<Outcome>, ghost calm: bool)
      requires Valid() && request.opId in intents && intents[request.opId].request == request
      requires Meant(Replacement(request.opId, expected, bytes))
      requires (request.opId, request.digest) !in temporaries
      modifies this`table, this`previews, this`held, this`replacements, this`temporaries
      ensures Valid() && Keeps(old(previews), previews) && old(held) <= held
      ensures replacements == old(replacements)
           || replacements == old(replacements) + [Replacement(request.opId, expected, bytes)]
      ensures if failure == None then bytes in held else !failure.value.Done?
      ensures calm ==> (failure == None <==> old(table) == expected)
    {
      var crash;
      ghost var c;
      crash, calm := WriteTemporary(request, bytes);
      if crash {
        return Some(Crashed), calm;
      }
      failure := CompareAndRename((request.opId, request.digest), expected);
      if failure.Some? {
        return;
      }
      crash, c := Interfere();
      calm := calm && c;
      failure := if crash then Some(Crashed) else None;
    }

    // Publishing the receipt: link() is atomic and refuses an existing target.
    method WriteReceipt(opId: Id) returns (outcome: Outcome, ghost calm: bool)
      requires Valid() && opId in intents && opId !in receipts
      requires Rendered(intents[opId].receipt.afterTable) in held
      modifies this`table, this`previews, this`held, this`receipts
      ensures Valid() && Keeps(old(previews), previews) && old(held) <= held
      ensures receipts == old(receipts) || receipts == old(receipts)[opId := intents[opId].receipt]
      ensures outcome.Done? ==> outcome.receipt == intents[opId].receipt && receipts == old(receipts)[opId := outcome.receipt]
      ensures !outcome.Done? ==> outcome == Crashed
      ensures calm ==> outcome.Done?
    {
      var crash;
      ghost var c;
      crash, calm := Interfere();
      if crash {
        return Crashed, calm;
      }
      receipts := receipts[opId := intents[opId].receipt];
      crash, c := Interfere();
      calm := calm && c;
      outcome := if crash then Crashed else Done(intents[opId].receipt);
    }

    // What both branches end with: replace the table, then publish the receipt.
    method Settle(request: Request, bytes: Bytes, expected: Bytes) returns (outcome: Outcome, ghost calm: bool)
      requires Valid() && request.opId in intents && request.opId !in receipts && intents[request.opId].request == request
      requires Meant(Replacement(request.opId, expected, bytes))
      requires (request.opId, request.digest) !in temporaries
      modifies this`table, this`previews, this`held, this`replacements, this`temporaries, this`receipts
      ensures Valid() && Grew() && ReplacedOnceAtMost(request.opId)
      ensures receipts == old(receipts) || receipts == old(receipts)[request.opId := intents[request.opId].receipt]
      ensures outcome.Done? ==> request.opId in receipts && receipts[request.opId] == outcome.receipt
      ensures calm ==> (outcome.Done? <==> old(table) == expected)
    {
      var failure;
      ghost var c;
      failure, calm := ReplaceTable(request, bytes, expected);
      if failure.Some? {
        return failure.value, calm;
      }
      outcome, c := WriteReceipt(request.opId);
      calm := calm && c;
    }

    // The branch taken when this operation's intent is already durable and its receipt is not.
    method Recover(request: Request) returns (outcome: Outcome, ghost calm: bool)
      requires Valid() && request.opId in intents && request.opId !in receipts
      modifies this
      ensures Valid() && Grew() && intents == old(intents)
      ensures receipts == old(receipts) || receipts == old(receipts)[request.opId := intents[request.opId].receipt]
      ensures outcome.Done? ==> request.opId in receipts && receipts[request.opId] == outcome.receipt
      ensures outcome.Done? ==> intents[request.opId].request == request
      ensures ReplacedOnceAtMost(request.opId)
      ensures calm ==> (outcome.Done? <==>
                intents[request.opId].request == request
                && (Digest(old(table)) == intents[request.opId].receipt.after
                    || Digest(old(table)) == intents[request.opId].receipt.before))
    {
      var crash;
      ghost var c;
      var intent := intents[request.opId];
      if intent.request != request {
        return Refused(Conflict), true;
      }
      temporaries := temporaries - {(request.opId, request.digest)};
      crash, calm := Interfere();
      if crash {
        return Crashed, calm;
      }
      var current := table;
      if current.parsed == None {
        return Refused(Invalid), calm;
      }
      if Digest(current) == intent.receipt.after {
        outcome, c := WriteReceipt(request.opId);
        calm := calm && c;
        return;
      }
      if Digest(current) != intent.receipt.before {
        return Refused(Conflict), calm;
      }
      var preview := previews[request.previewId];
      var verdict;
      verdict, c := Recheck(preview, request.accepted);
      calm := calm && c;
      if verdict.Some? {
        return Refused(verdict.value), calm;
      }
      crash, c := Interfere();
      calm := calm && c;
      if crash {
        return Crashed, calm;
      }
      outcome, c := Settle(request, Rendered(intent.receipt.afterTable), current);
      calm := calm && c;
    }

    // The branch taken the first time: build the new table, publish the intent, replace, publish the receipt.
    method Start(request: Request) returns (outcome: Outcome, ghost calm: bool)
      requires Valid() && request.opId !in intents
      modifies this
      ensures Valid() && Grew()
      ensures forall op :: op in intents ==> op in old(intents) || op == request.opId
      ensures request.opId in intents ==> intents[request.opId].request == request
      ensures receipts == old(receipts)
           || (request.opId in intents && receipts == old(receipts)[request.opId := intents[request.opId].receipt])
      ensures outcome.Done? ==> request.opId in receipts && receipts[request.opId] == outcome.receipt
      ensures ReplacedOnceAtMost(request.opId)
      ensures calm ==> (outcome.Done? <==> old(CanStart(request)))
    {
      var crash;
      ghost var c;
      crash, calm := Interfere();
      if crash {
        return Crashed, calm;
      }
      if request.previewId !in previews || previews[request.previewId].base != request.base {
        return Refused(Conflict), calm;
      }
      var preview, original := previews[request.previewId], table;
      if original.parsed == None {
        return Refused(Invalid), calm;
      }
      if Digest(original) != request.base {
        return Refused(Stale), calm;
      }
      var after;
      after, c := BuildAfter(original.parsed.value, preview, request.accepted);
      calm := calm && c;
      if after.Err? {
        return Refused(after.error), calm;
      }
      crash, c := Interfere();
      calm := calm && c;
      if crash {
        return Crashed, calm;
      }
      PublishIntent(request, preview, original, after.value);
      crash, c := Interfere();
      calm := calm && c;
      if crash {
        return Crashed, calm;
      }
      if table != original {
        return Refused(if table.parsed == None then Invalid else Stale), calm;
      }
      outcome, c := Settle(request, Rendered(after.value), original);
      calm := calm && c;
    }

    method PublishIntent(request: Request, preview: Preview, original: Bytes, after: Table)
      requires Valid() && request.opId !in intents
      requires request.previewId in previews && previews[request.previewId] == preview && preview.base == request.base
      requires original.parsed.Some? && Digest(original) == request.base
      requires IsAfter(original.parsed.value, preview, request.accepted, after)
      modifies this`intents
      ensures Valid() && request.opId in intents && intents == old(intents)[request.opId := intents[request.opId]]
      ensures var i := intents[request.opId];
              i.request == request && i.receipt.before == Digest(original) && i.receipt.afterTable == after
    {
      intents := intents[request.opId := Intent(request,
        Receipt(request.opId, request.digest, request.previewId, request.accepted, request.base,
                Digest(Rendered(after)), original.parsed.value, after))];
    }

    ghost predicate CanStart(request: Request)
      reads this
    {
      && request.previewId in previews && previews[request.previewId].base == request.base
      && Digest(table) == request.base && table.parsed.Some?
      && var changes := Selected(previews[request.previewId], request.accepted);
         changes.Some? && Acceptable(table.parsed.value, previews[request.previewId], changes.value)
    }

    // Exactly when an undisturbed call ends with a receipt.
    ghost predicate CanComplete(request: Request)
      reads this
    {
      && request.accepted != [] && Distinct(request.accepted)
      && if request.opId in intents then
           && intents[request.opId].request == request
           && (request.opId in receipts
               || Digest(table) == intents[request.opId].receipt.before
               || Digest(table) == intents[request.opId].receipt.after)
         else CanStart(request)
    }

    // One call, from any durable state an earlier crash, refusal or edit left. A receipt once published
    // is what every later call of the same request answers and nothing more is done for it; at most one
    // rename happens, and Valid says it is the one its intent announced; left alone, the call ends with
    // a receipt exactly when CanComplete said so.
    method Apply(request: Request) returns (outcome: Outcome, ghost calm: bool)
      requires Valid()
      modifies this
      ensures Valid() && Grew()
      ensures outcome.Done? ==>
                && request.opId in receipts && receipts[request.opId] == outcome.receipt
                && intents[request.opId].request == request
                && Rendered(outcome.receipt.afterTable) in held
      ensures request.opId in old(receipts) ==>
                && intents == old(intents) && receipts == old(receipts)
                && temporaries == old(temporaries) && replacements == old(replacements)
                && (old(intents)[request.opId].request == request && request.accepted != [] && Distinct(request.accepted) ==>
                      outcome == Crashed || outcome == Done(old(receipts)[request.opId]))
                && (outcome.Done? ==> outcome.receipt == old(receipts)[request.opId])
      ensures forall op :: op != request.opId ==>
                (op in intents <==> op in old(intents)) && (op in receipts <==> op in old(receipts))
      ensures ReplacedOnceAtMost(request.opId)
      ensures calm ==> (outcome.Done? <==> old(CanComplete(request)))
    {
      if request.accepted == [] || !(forall i, j :: 0 <= i < j < |request.accepted| ==> request.accepted[i] != request.accepted[j]) {
        return Refused(Invalid), true;
      }
      var crash;
      ghost var c;
      crash, calm := Interfere();
      if crash {
        return Crashed, calm;
      }
      if request.opId in receipts {
        if request.opId !in intents || intents[request.opId].request != request
          || receipts[request.opId] != intents[request.opId].receipt {
          return Refused(Conflict), calm;
        }
        return Done(receipts[request.opId]), calm;
      }
      if request.opId in intents {
        outcome, c := Recover(request);
      } else {
        outcome, c := Start(request);
      }
      calm := calm && c;
    }
  }
}
