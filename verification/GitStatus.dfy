/** Reading `git status --porcelain=v1 -z`: records of two status letters, a space and a path, each ended by
    NUL, with the source path of a rename or copy as one more NUL-ended field after it. */
module GitStatus {
  import opened Basics

  const NUL: char := 0 as char

  datatype Record = Record(x: char, y: char, path: string, source: Option<string>)

  predicate Field(s: string) {
    s != "" && forall i :: 0 <= i < |s| ==> s[i] != NUL
  }

  predicate Moved(x: char, y: char) {
    x == 'R' || x == 'C' || y == 'R' || y == 'C'
  }

  // What git prints: a source is given exactly for a rename or a copy.
  predicate WellFormed(r: Record) {
    && r.x != NUL && r.y != NUL && Field(r.path)
    && (r.source.Some? <==> Moved(r.x, r.y))
    && (r.source.Some? ==> Field(r.source.value))
  }

  predicate AllWellFormed(records: seq<Record>) {
    forall i :: 0 <= i < |records| ==> WellFormed(records[i])
  }

  function Line(r: Record): string {
    [r.x, r.y, ' '] + r.path
  }

  function RecordText(r: Record): string {
    Line(r) + [NUL] + if r.source.Some? then r.source.value + [NUL] else ""
  }

  function Text(records: seq<Record>): string {
    if records == [] then "" else RecordText(records[0]) + Text(records[1..])
  }

  function Split(s: string): (pieces: seq<string>)
    ensures |pieces| >= 1
  {
    if s == "" then [""]
    else if s[0] == NUL then [""] + Split(s[1..])
    else
      var rest := Split(s[1..]);
      [[s[0]] + rest[0]] + rest[1..]
  }

  // JavaScript's slice, which never fails.
  function Slice(s: string, from: nat, to: nat): string
    requires from <= to
  {
    var end := if to < |s| then to else |s|;
    if from < end then s[from..end] else ""
  }

  function Drop(s: string, from: nat): string {
    if from < |s| then s[from..] else ""
  }

  function Add(paths: seq<string>, path: string): seq<string> {
    if path in paths then paths else paths + [path]
  }

  // The walk over the pieces, from the first of `entries` on, with `paths` collected so far.
  function Walk(entries: seq<string>, paths: seq<string>): seq<string>
    decreases |entries|
  {
    if entries == [] then paths
    else if entries[0] == "" then Walk(entries[1..], paths)
    else
      var status, path := Slice(entries[0], 0, 2), Drop(entries[0], 3);
      var found := if path != "" then Add(paths, path) else paths;
      if 'R' in status || 'C' in status then Walk(if |entries| > 1 then entries[2..] else [], found)
      else Walk(entries[1..], found)
  }

  function Rest(entries: seq<string>, index: nat): seq<string> {
    if index <= |entries| then entries[index..] else []
  }

  method ParseChangedPaths(statusOutput: string) returns (paths: seq<string>)
    ensures paths == Walk(Split(statusOutput), [])
  {
    var entries := Split(statusOutput);
    paths := [];
    var index := 0;
    while index < |entries|
      invariant 0 <= index <= |entries| + 1
      invariant Walk(Rest(entries, index), paths) == Walk(entries, [])
    {
      var entry := entries[index];
      assert Rest(entries, index)[0] == entry && Rest(entries, index)[1..] == Rest(entries, index + 1);
      if entry == "" {
        index := index + 1;
        continue;
      }
      var status, path := Slice(entry, 0, 2), Drop(entry, 3);
      if path != "" {
        paths := Add(paths, path);
      }
      if 'R' in status || 'C' in status {
        assert |Rest(entries, index)| > 1 ==> Rest(entries, index)[2..] == Rest(entries, index + 2);
        index := index + 1;
      }
      index := index + 1;
    }
  }

  // ---- printed, then parsed ----

  function Fields(r: Record): seq<string> {
    [Line(r)] + if r.source.Some? then [r.source.value] else []
  }

  function Pieces(records: seq<Record>): seq<string> {
    if records == [] then [""]
    else Fields(records[0]) + Pieces(records[1..])
  }

  lemma {:induction false} SplitField(field: string, rest: string)
    requires forall i :: 0 <= i < |field| ==> field[i] != NUL
    ensures Split(field + [NUL] + rest) == [field] + Split(rest)
  {
    if field == "" {
      assert field + [NUL] + rest == [NUL] + rest;
      assert ([NUL] + rest)[1..] == rest;
    } else {
      SplitField(field[1..], rest);
      assert (field + [NUL] + rest)[1..] == field[1..] + [NUL] + rest;
      assert [field[0]] + field[1..] == field;
    }
  }

  lemma SplitRecord(r: Record, tail: string)
    requires WellFormed(r)
    ensures Split(RecordText(r) + tail) == Fields(r) + Split(tail)
  {
    if r.source.Some? {
      SplitField(r.source.value, tail);
      assert RecordText(r) + tail == Line(r) + [NUL] + (r.source.value + [NUL] + tail);
      SplitField(Line(r), r.source.value + [NUL] + tail);
    } else {
      assert RecordText(r) + tail == Line(r) + [NUL] + tail;
      SplitField(Line(r), tail);
    }
  }

  lemma {:induction false} SplitText(records: seq<Record>)
    requires AllWellFormed(records)
    ensures Split(Text(records)) == Pieces(records)
  {
    if records != [] {
      SplitText(records[1..]);
      SplitRecord(records[0], Text(records[1..]));
    }
  }

  // Destination paths, each at its first occurrence.
  function FirstOccurrences(records: seq<Record>, paths: seq<string>): seq<string>
    decreases |records|
  {
    if records == [] then paths else FirstOccurrences(records[1..], Add(paths, records[0].path))
  }

  lemma LineParts(r: Record)
    requires WellFormed(r)
    ensures Line(r) != "" && Slice(Line(r), 0, 2) == [r.x, r.y] && Drop(Line(r), 3) == r.path
    ensures 'R' in Slice(Line(r), 0, 2) || 'C' in Slice(Line(r), 0, 2) <==> r.source.Some?
  {
    assert Line(r)[0..2] == [r.x, r.y];
    assert Line(r)[3..] == r.path;
  }

  lemma {:induction false} WalkPieces(records: seq<Record>, paths: seq<string>)
    requires AllWellFormed(records)
    ensures Walk(Pieces(records), paths) == FirstOccurrences(records, paths)
    decreases |records|
  {
    if records == [] {
      assert [""][1..] == [];
      assert Walk([""], paths) == Walk([], paths);
    } else {
      var r := records[0];
      LineParts(r);
      WalkPieces(records[1..], Add(paths, r.path));
      var pieces := Pieces(records);
      assert pieces[0] == Line(r);
      if r.source.Some? {
        assert |pieces| > 1 && pieces[2..] == Pieces(records[1..]);
      } else {
        assert pieces[1..] == Pieces(records[1..]);
      }
    }
  }

  // For every list of records git may print, parsing its text gives exactly the distinct destination
  // paths in the order they first occur, and no source path for its own sake.
  lemma PrintedThenParsed(records: seq<Record>)
    requires AllWellFormed(records)
    ensures Walk(Split(Text(records)), []) == FirstOccurrences(records, [])
    ensures forall path :: path in FirstOccurrences(records, []) <==> Names(records, path)
    ensures Distinct(FirstOccurrences(records, []))
  {
    SplitText(records);
    WalkPieces(records, []);
    OccurrencesExactly(records, []);
  }

  predicate Names(records: seq<Record>, path: string) {
    exists r :: r in records && r.path == path
  }

  predicate Distinct(paths: seq<string>) {
    forall i, j :: 0 <= i < j < |paths| ==> paths[i] != paths[j]
  }

  lemma {:induction false} OccurrencesExactly(records: seq<Record>, paths: seq<string>)
    requires Distinct(paths)
    ensures Distinct(FirstOccurrences(records, paths)) && paths <= FirstOccurrences(records, paths)
    ensures forall path :: path in FirstOccurrences(records, paths) <==> path in paths || Names(records, path)
    decreases |records|
  {
    if records != [] {
      OccurrencesExactly(records[1..], Add(paths, records[0].path));
      assert forall r :: r in records <==> r == records[0] || r in records[1..];
      forall path: string
        ensures Names(records, path) <==> records[0].path == path || Names(records[1..], path)
      {
        assert records[0].path == path ==> Names(records, path);
      }
    }
  }

  // ---- the second copy of the walk, in the task-result capture ----

  // It starts from the paths the report named, does not skip an empty path, and notes deletions.
  function CaptureWalk(entries: seq<string>, paths: seq<string>, deleted: set<string>): (seq<string>, set<string>)
    decreases |entries|
  {
    if entries == [] then (paths, deleted)
    else if entries[0] == "" then CaptureWalk(entries[1..], paths, deleted)
    else
      var status, path := Slice(entries[0], 0, 2), Drop(entries[0], 3);
      var gone := if 'D' in status then deleted + {path} else deleted;
      if 'R' in status || 'C' in status then CaptureWalk(if |entries| > 1 then entries[2..] else [], Add(paths, path), gone)
      else CaptureWalk(entries[1..], Add(paths, path), gone)
  }

  method CaptureChangedPaths(statusOutput: string, reported: seq<string>) returns (paths: seq<string>, deleted: set<string>)
    ensures (paths, deleted) == CaptureWalk(Split(statusOutput), reported, {})
  {
    var entries := Split(statusOutput);
    paths, deleted := reported, {};
    var i := 0;
    while i < |entries|
      invariant 0 <= i <= |entries| + 1
      invariant CaptureWalk(Rest(entries, i), paths, deleted) == CaptureWalk(entries, reported, {})
    {
      var entry := entries[i];
      assert Rest(entries, i)[0] == entry && Rest(entries, i)[1..] == Rest(entries, i + 1);
      if entry == "" {
        i := i + 1;
        continue;
      }
      var status, path := Slice(entry, 0, 2), Drop(entry, 3);
      paths := Add(paths, path);
      if 'D' in status {
        deleted := deleted + {path};
      }
      if 'R' in status || 'C' in status {
        assert |Rest(entries, i)| > 1 ==> Rest(entries, i)[2..] == Rest(entries, i + 2);
        i := i + 1;
      }
      i := i + 1;
    }
  }

  predicate Deletes(r: Record) {
    r.x == 'D' || r.y == 'D'
  }

  lemma {:induction false} CapturePieces(records: seq<Record>, paths: seq<string>, deleted: set<string>)
    requires AllWellFormed(records)
    ensures CaptureWalk(Pieces(records), paths, deleted).0 == FirstOccurrences(records, paths)
    ensures forall path :: path in CaptureWalk(Pieces(records), paths, deleted).1 <==>
              path in deleted || exists r :: r in records && r.path == path && Deletes(r)
    decreases |records|
  {
    if records == [] {
      assert [""][1..] == [];
      assert CaptureWalk([""], paths, deleted) == CaptureWalk([], paths, deleted);
    } else {
      var r := records[0];
      LineParts(r);
      CapturePieces(records[1..], Add(paths, r.path), if Deletes(r) then deleted + {r.path} else deleted);
      var pieces := Pieces(records);
      assert pieces[0] == Line(r);
      if r.source.Some? {
        assert |pieces| > 1 && pieces[2..] == Pieces(records[1..]);
      } else {
        assert pieces[1..] == Pieces(records[1..]);
      }
      assert forall x :: x in records <==> x == r || x in records[1..];
    }
  }

  // On what git prints the two walks visit the same paths in the same order; starting from a report the
  // second adds exactly the changed paths the report left out, and marks exactly the deleted ones.
  lemma WalksAgree(records: seq<Record>, reported: seq<string>)
    requires AllWellFormed(records) && Distinct(reported)
    ensures CaptureWalk(Split(Text(records)), [], {}).0 == Walk(Split(Text(records)), [])
    ensures var (paths, deleted) := CaptureWalk(Split(Text(records)), reported, {});
            && reported <= paths && Distinct(paths)
            && (forall path :: path in paths <==> path in reported || path in Walk(Split(Text(records)), []))
            && (forall path :: path in deleted <==> exists r :: r in records && r.path == path && Deletes(r))
  {
    SplitText(records);
    WalkPieces(records, []);
    CapturePieces(records, [], {});
    CapturePieces(records, reported, {});
    OccurrencesExactly(records, reported);
    OccurrencesExactly(records, []);
  }
}
