/** The published log of task-result manifests: written once per attempt and kind, read by anyone with a
    cursor. A manifest stands for the reference to it, since a reference is checked by hash. */
module TaskResults {
  import opened Basics

  datatype Kind = Execution | VerificationStarted | VerificationCompleted | VerificationNotRun

  datatype Stage = ExecutionStage | VerificationStage

  datatype Manifest = Manifest(
    attempt: int, revision: int, stage: Stage, explanation: Id, executionRef: Id, verificationRef: Option<Id>, outputs: seq<Id>)

  // Rows written before kinds were recorded have none.
  datatype Row = Row(revision: int, manifest: Manifest, recorded: Option<Kind>)

  datatype Log = Log(revision: int, rows: seq<Row>)

  const PAGE := 64

  function KindOf(row: Row): Kind {
    if row.recorded.Some? then row.recorded.value
    else if row.manifest.stage == ExecutionStage then Execution
    else VerificationCompleted
  }

  predicate SameOutcome(a: Manifest, b: Manifest) {
    a.(revision := 0, stage := ExecutionStage, verificationRef := None) == b.(revision := 0, stage := ExecutionStage, verificationRef := None)
  }

  // A verification row has an execution row of its attempt before it, and changes nothing of it but the
  // verification's own reference.
  predicate Backed(rows: seq<Row>, i: nat)
    requires i < |rows|
  {
    KindOf(rows[i]) != Execution ==>
      exists j :: 0 <= j < i && KindOf(rows[j]) == Execution && SameOutcome(rows[j].manifest, rows[i].manifest)
  }

  predicate Dense(log: Log) {
    log.revision == |log.rows| && forall i :: 0 <= i < |log.rows| ==> log.rows[i].revision == i + 1
  }

  predicate Valid(log: Log) {
    && Dense(log)
    && (forall i :: 0 <= i < |log.rows| ==>
          && log.rows[i].manifest.revision == i + 1
          && (KindOf(log.rows[i]) == Execution <==> log.rows[i].manifest.stage == ExecutionStage)
          && Backed(log.rows, i))
    && (forall i, j :: 0 <= i < j < |log.rows| ==>
          log.rows[i].manifest.attempt != log.rows[j].manifest.attempt || KindOf(log.rows[i]) != KindOf(log.rows[j]))
  }

  // What the capture of one attempt and kind comes to, if it can be written.
  datatype Capture = Recorded | AlreadyRecorded | NoExecutionSnapshot | NotWritten

  datatype Page = Page(rows: seq<Row>, revision: int, next: int)

  class ResultLog {
    var log: Log

    constructor ()
      ensures Valid(log) && log.rows == []
    {
      log := Log(0, []);
    }

    // One capture. Evidence and index may fail to be written, and then nothing is published.
    method Record(
      attempt: int, kind: Kind, explanation: Id, executionRef: Id, evidence: Option<Id>, outputs: seq<Id>, writable: bool)
      returns (r: Capture)
      requires Valid(log)
      modifies this
      ensures Valid(log)
      ensures r == Recorded ==>
                && |log.rows| == |old(log).rows| + 1 && old(log).rows <= log.rows
                && var row := log.rows[|old(log).rows|];
                && row.manifest.attempt == attempt && KindOf(row) == kind
                && (kind == Execution ==>
                      row.manifest == Manifest(attempt, |log.rows|, ExecutionStage, explanation, executionRef, None, outputs))
                && (kind != Execution ==> row.manifest.verificationRef == evidence)
      ensures r != Recorded ==> log == old(log)
      ensures r == AlreadyRecorded <==>
                exists i :: 0 <= i < |old(log).rows| && old(log).rows[i].manifest.attempt == attempt && KindOf(old(log).rows[i]) == kind
      ensures r == NoExecutionSnapshot <==>
                && kind != Execution
                && forall i :: 0 <= i < |old(log).rows| && old(log).rows[i].manifest.attempt == attempt ==>
                     KindOf(old(log).rows[i]) != Execution && KindOf(old(log).rows[i]) != kind
      ensures r == Recorded || r == NotWritten ==> (r == Recorded <==> writable)
    {
      var executionStage: Option<Manifest>, k := None, 0;
      ghost var at: int := -1;
      while k < |log.rows|
        invariant 0 <= k <= |log.rows| && log == old(log)
        invariant forall i :: 0 <= i < k && log.rows[i].manifest.attempt == attempt ==> KindOf(log.rows[i]) != kind
        invariant executionStage == None ==>
                    forall i :: 0 <= i < k && log.rows[i].manifest.attempt == attempt ==> KindOf(log.rows[i]) != Execution
        invariant executionStage.Some? ==>
                    0 <= at < k && log.rows[at].manifest == executionStage.value
                    && executionStage.value.attempt == attempt && KindOf(log.rows[at]) == Execution
      {
        var row := log.rows[k];
        if row.manifest.attempt == attempt {
          if KindOf(row) == kind {
            return AlreadyRecorded;
          }
          if row.manifest.stage == ExecutionStage {
            executionStage, at := Some(row.manifest), k;
          }
        }
        k := k + 1;
      }
      if kind != Execution && executionStage == None {
        return NoExecutionSnapshot;
      }
      var manifest :=
        if kind == Execution then
          Manifest(attempt, log.revision + 1, ExecutionStage, explanation, executionRef, None, outputs)
        else
          executionStage.value.(revision := log.revision + 1, stage := VerificationStage, verificationRef := evidence);
      if !writable {
        return NotWritten;
      }
      var row := Row(manifest.revision, manifest, Some(kind));
      RowKeepsValid(log, row, at);
      log := Log(manifest.revision, log.rows + [row]);
      r := Recorded;
    }

    method Collect(afterRevision: int) returns (r: Result<Page, ()>)
      requires Valid(log)
      ensures r == if afterRevision < 0 || afterRevision > log.revision then Err(()) else Ok(Poll(log, afterRevision))
    {
      if afterRevision < 0 || afterRevision > log.revision {
        return Err(());
      }
      var newer, k := [], 0;
      assert log.rows[..0] == [];
      while k < |log.rows|
        invariant 0 <= k <= |log.rows|
        invariant newer == Newer(log.rows[..k], afterRevision)
      {
        NewerOne(log.rows[..k], log.rows[k], afterRevision);
        assert log.rows[..k + 1] == log.rows[..k] + [log.rows[k]];
        if log.rows[k].revision > afterRevision {
          newer := newer + [log.rows[k]];
        }
        k := k + 1;
      }
      assert log.rows[..k] == log.rows;
      var page := if |newer| > PAGE then newer[..PAGE] else newer;
      r := Ok(Page(page, log.revision, if page == [] then afterRevision else page[|page| - 1].revision));
    }
  }

  lemma RowKeepsValid(log: Log, row: Row, at: int)
    requires Valid(log) && row.revision == log.revision + 1 == row.manifest.revision
    requires KindOf(row) == Execution <==> row.manifest.stage == ExecutionStage
    requires forall i :: 0 <= i < |log.rows| && log.rows[i].manifest.attempt == row.manifest.attempt ==> KindOf(log.rows[i]) != KindOf(row)
    requires KindOf(row) != Execution ==>
               0 <= at < |log.rows| && KindOf(log.rows[at]) == Execution && SameOutcome(log.rows[at].manifest, row.manifest)
    ensures Valid(Log(row.revision, log.rows + [row]))
  {
    var rows := log.rows + [row];
    forall i | 0 <= i < |rows|
      ensures Backed(rows, i)
    {
      if i < |log.rows| {
        assert Backed(log.rows, i);
        if KindOf(rows[i]) != Execution {
          var j :| 0 <= j < i && KindOf(log.rows[j]) == Execution && SameOutcome(log.rows[j].manifest, log.rows[i].manifest);
          assert rows[j] == log.rows[j];
        }
      } else if KindOf(row) != Execution {
        assert rows[at] == log.rows[at];
      }
    }
  }

  function Newer(rows: seq<Row>, after: int): seq<Row> {
    if rows == [] then []
    else
      var n := |rows| - 1;
      Newer(rows[..n], after) + if rows[n].revision > after then [rows[n]] else []
  }

  lemma NewerOne(rows: seq<Row>, row: Row, after: int)
    ensures Newer(rows + [row], after) == Newer(rows, after) + if row.revision > after then [row] else []
  {
    assert (rows + [row])[..|rows|] == rows;
  }

  // What a poll answers.
  function Poll(log: Log, cursor: int): Page {
    var newer := Newer(log.rows, cursor);
    var page := if |newer| > PAGE then newer[..PAGE] else newer;
    Page(page, log.revision, if page == [] then cursor else page[|page| - 1].revision)
  }

  lemma {:induction false} NewerIsSuffix(rows: seq<Row>, after: nat)
    requires forall i :: 0 <= i < |rows| ==> rows[i].revision == i + 1
    ensures Newer(rows, after) == if after <= |rows| then rows[after..] else []
  {
    if rows != [] {
      var n := |rows| - 1;
      NewerIsSuffix(rows[..n], after);
      if after <= n {
        assert rows[..n][after..] + [rows[n]] == rows[after..];
      } else if after == |rows| {
        assert rows[after..] == [];
      }
    }
  }

  // A poll is the next stretch of the log after the cursor, and says where the next one starts; it is
  // empty only at the end.
  lemma PollIsNextStretch(log: Log, cursor: nat)
    requires Dense(log) && cursor <= log.revision
    ensures var page := Poll(log, cursor);
            && cursor <= page.next <= log.revision
            && page.rows == log.rows[cursor..page.next]
            && (page.next == cursor <==> cursor == log.revision)
            && page.next - cursor <= PAGE
  {
    NewerIsSuffix(log.rows, cursor);
    var n := if |log.rows| - cursor > PAGE then PAGE else |log.rows| - cursor;
    Stretch(log.rows, cursor, n);
    assert Poll(log, cursor).rows == log.rows[cursor..cursor + n];
  }

  lemma Stretch(rows: seq<Row>, from: nat, n: nat)
    requires from + n <= |rows|
    ensures rows[from..][..n] == rows[from..from + n]
    ensures from + n == |rows| ==> rows[from..] == rows[from..from + n]
    ensures n > 0 ==> rows[from..from + n][n - 1] == rows[from + n - 1]
  {
  }

  // A reader that always continues with the revision the last answer gave it, over logs that only grow.
  predicate Grows(logs: seq<Log>) {
    && (forall i :: 0 <= i < |logs| ==> Dense(logs[i]))
    && (forall i :: 0 < i < |logs| ==> logs[i - 1].rows <= logs[i].rows)
  }

  function Received(logs: seq<Log>, cursor: int): (seq<Row>, int)
    decreases |logs|
  {
    if logs == [] then ([], cursor)
    else
      var page := Poll(logs[0], cursor);
      var (rest, final) := Received(logs[1..], page.next);
      (page.rows + rest, final)
  }

  // Whatever is appended between the polls, it has received exactly the log up to its cursor: every
  // manifest once, none left out, in order.
  lemma {:induction false} ReaderSeesEachOnce(logs: seq<Log>, cursor: nat)
    requires Grows(logs) && logs != [] && cursor <= logs[0].revision
    ensures var (rows, final) := Received(logs, cursor);
            var last := logs[|logs| - 1];
            cursor <= final <= last.revision && rows == last.rows[cursor..final]
    decreases |logs|
  {
    PollIsNextStretch(logs[0], cursor);
    var page := Poll(logs[0], cursor);
    if |logs| > 1 {
      assert logs[0].rows <= logs[1].rows;
      ReaderSeesEachOnce(logs[1..], page.next);
      FirstInLast(logs);
      Join(logs[0].rows, logs[|logs| - 1].rows, cursor, page.next, Received(logs[1..], page.next).1);
    } else {
      assert Received(logs[1..], page.next) == ([], page.next);
    }
  }

  lemma Join(first: seq<Row>, last: seq<Row>, a: nat, b: nat, c: nat)
    requires first <= last && a <= b <= |first| && b <= c <= |last|
    ensures first[a..b] + last[b..c] == last[a..c]
    ensures c == |last| ==> last[b..c] == last[b..] && last[a..c] == last[a..]
  {
  }

  lemma {:induction false} FirstInLast(logs: seq<Log>)
    requires Grows(logs) && logs != []
    ensures logs[0].rows <= logs[|logs| - 1].rows
    decreases |logs|
  {
    if |logs| > 1 {
      assert logs[0].rows <= logs[1].rows;
      FirstInLast(logs[1..]);
    }
  }

  // And it catches up: once the log stands still, each further poll moves on until it has everything.
  lemma {:induction false} ReaderCatchesUp(log: Log, polls: nat, cursor: nat)
    requires Dense(log) && cursor <= log.revision && log.revision - cursor <= polls
    ensures Received(seq(polls, i => log), cursor) == (log.rows[cursor..], log.revision)
    decreases polls
  {
    if polls == 0 {
      assert log.rows[cursor..] == [];
    } else {
      PollIsNextStretch(log, cursor);
      var page := Poll(log, cursor);
      OnePollMore(log, polls, cursor);
      ReaderCatchesUp(log, polls - 1, page.next);
      Join(log.rows, log.rows, cursor, page.next, |log.rows|);
    }
  }

  lemma OnePollMore(log: Log, polls: nat, cursor: int)
    requires polls > 0
    ensures var page := Poll(log, cursor);
            var (rest, final) := Received(seq(polls - 1, i => log), page.next);
            Received(seq(polls, i => log), cursor) == (page.rows + rest, final)
  {
    assert seq(polls, i => log)[1..] == seq(polls - 1, i => log);
  }
}
