/** Settling the extra worktrees of one attempt: publish each, remove it, write down every commit. A pass may
    throw on a removal failure, and a best-effort pass may follow; publishing and removing may fail at any time. */
module ExtraWorktrees {
  import opened Basics

  datatype Extra = Extra(key: Id, published: bool)

  datatype Done = PublishTried(key: Id, commit: Option<Id>) | RemoveTried(key: Id, removed: bool)

  // How a pass ends: through, or thrown out by a removal, by an event that could not be written, by the commits
  // file itself, or, with everything done, by the clean-up of the empty directories.
  datatype PassEnd = Through | RemovalFailed | EventFailed | WriteFailed | CleanupFailed

  // The work of the pass is all done, whether or not the empty directories could then be removed.
  predicate AllDone(end: PassEnd) {
    end == Through || end == CleanupFailed
  }

  // A JavaScript object: its properties in the order they were first set.
  type Commits = seq<(Id, Id)>

  predicate Has(commits: Commits, key: Id) {
    exists i :: 0 <= i < |commits| && commits[i].0 == key
  }

  function Set(commits: Commits, key: Id, commit: Id): Commits {
    if commits == [] then [(key, commit)]
    else if commits[0].0 == key then [(key, commit)] + commits[1..]
    else [commits[0]] + Set(commits[1..], key, commit)
  }

  lemma {:induction false} SetExactly(commits: Commits, key: Id, commit: Id)
    ensures (key, commit) in Set(commits, key, commit)
    ensures forall c :: c in commits && c.0 != key ==> c in Set(commits, key, commit)
    ensures forall c :: c in Set(commits, key, commit) ==> c in commits || c == (key, commit)
    ensures commits != [] ==> Set(commits, key, commit)[0].0 == commits[0].0
  {
    if commits != [] && commits[0].0 != key {
      SetExactly(commits[1..], key, commit);
    }
  }

  predicate UniqueKeys(extras: seq<Extra>) {
    forall i, j :: 0 <= i < j < |extras| ==> extras[i].key != extras[j].key
  }

  function KeysOf(extras: seq<Extra>): set<Id> {
    set e | e in extras :: e.key
  }

  function IndexOf(extras: seq<Extra>, key: Id): (index: nat)
    requires key in KeysOf(extras)
    ensures index < |extras| && extras[index].key == key
  {
    if extras[0].key == key then 0 else 1 + IndexOf(extras[1..], key)
  }

  predicate Tried(log: seq<Done>, key: Id) {
    exists i :: 0 <= i < |log| && log[i].PublishTried? && log[i].key == key
  }

  // Since the log had `from` entries, this extra was published or tried again, and then its removal tried.
  predicate Visited(log: seq<Done>, from: nat, key: Id) {
    Tried(log, key) && exists i :: from <= i < |log| && log[i].RemoveTried? && log[i].key == key
  }

  lemma VisitedStays(log: seq<Done>, later: seq<Done>, from: nat, key: Id)
    requires Visited(log, from, key) && log <= later
    ensures Visited(later, from, key)
  {
    var i :| 0 <= i < |log| && log[i].PublishTried? && log[i].key == key;
    var j :| from <= j < |log| && log[j].RemoveTried? && log[j].key == key;
    assert later[i] == log[i] && later[j] == log[j];
  }

  predicate Succeeded(log: seq<Done>, key: Id) {
    exists i :: 0 <= i < |log| && log[i].PublishTried? && log[i].key == key && log[i].commit.Some?
  }

  // Every removal that was tried comes after a publication that was tried.
  predicate PublishedFirst(log: seq<Done>) {
    forall i :: 0 <= i < |log| && log[i].RemoveTried? ==> Tried(log[..i], log[i].key)
  }

  // Every successful commit is among the recorded ones.
  predicate AllRecorded(log: seq<Done>, commits: Commits) {
    forall i :: 0 <= i < |log| && log[i].PublishTried? && log[i].commit.Some? ==> (log[i].key, log[i].commit.value) in commits
  }

  predicate IsSuccess(d: Done) {
    d.PublishTried? && d.commit.Some?
  }

  // Each extra is published successfully at most once.
  predicate PublishedOnce(log: seq<Done>) {
    forall i, j :: 0 <= i < j < |log| && IsSuccess(log[i]) && IsSuccess(log[j]) ==> log[i].key != log[j].key
  }

  lemma LogGrows(log: seq<Done>, d: Done)
    requires PublishedFirst(log) && PublishedOnce(log)
    requires d.RemoveTried? ==> Tried(log, d.key)
    requires d.PublishTried? && d.commit.Some? ==> !Succeeded(log, d.key)
    ensures PublishedFirst(log + [d]) && PublishedOnce(log + [d])
    ensures forall key :: Succeeded(log + [d], key) <==> Succeeded(log, key) || (d.PublishTried? && d.commit.Some? && d.key == key)
    ensures forall key :: Tried(log + [d], key) <==> Tried(log, key) || (d.PublishTried? && d.key == key)
  {
    var next := log + [d];
    assert next[..|log|] == log && next[|log|] == d;
    forall i | 0 <= i < |next| && next[i].RemoveTried?
      ensures Tried(next[..i], next[i].key)
    {
      assert i < |log| ==> next[..i] == log[..i];
    }
    forall key
      ensures Succeeded(next, key) <==> Succeeded(log, key) || (d.PublishTried? && d.commit.Some? && d.key == key)
      ensures Tried(next, key) <==> Tried(log, key) || (d.PublishTried? && d.key == key)
    {
      if i :| 0 <= i < |log| && log[i].PublishTried? && log[i].key == key {
        assert next[i] == log[i];
      }
      if i :| 0 <= i < |log| && log[i].PublishTried? && log[i].key == key && log[i].commit.Some? {
        assert next[i] == log[i];
      }
    }
  }

  // Marking one entry changes no key, and dropping one drops only its own.
  lemma SameKeys(extras: seq<Extra>, index: nat)
    requires UniqueKeys(extras) && index < |extras|
    ensures var marked := extras[index := Extra(extras[index].key, true)];
            && KeysOf(marked) == KeysOf(extras) && UniqueKeys(marked)
            && forall e :: e in marked <==> e == Extra(extras[index].key, true) || (e in extras && e.key != extras[index].key)
    ensures var rest := extras[..index] + extras[index + 1..];
            && KeysOf(rest) == KeysOf(extras) - {extras[index].key} && UniqueKeys(rest)
            && forall e :: e in rest <==> e in extras && e.key != extras[index].key
  {
    var key := extras[index].key;
    var marked := extras[index := Extra(key, true)];
    var rest := extras[..index] + extras[index + 1..];
    forall e
      ensures e in marked <==> e == Extra(key, true) || (e in extras && e.key != key)
      ensures e in rest <==> e in extras && e.key != key
    {
      if e in extras && e.key != key {
        var i :| 0 <= i < |extras| && extras[i] == e;
        assert marked[i] == e;
        assert if i < index then rest[i] == e else rest[i - 1] == e;
      }
      if e in marked {
        var i :| 0 <= i < |marked| && marked[i] == e;
        assert e == if i == index then Extra(key, true) else extras[i];
      }
      assert marked[index] == Extra(key, true);
      if e in rest {
        var i :| 0 <= i < |rest| && rest[i] == e;
        assert e == if i < index then extras[i] else extras[i + 1];
      }
    }
    assert marked[index] == Extra(key, true);
    forall k
      ensures k in KeysOf(marked) <==> k in KeysOf(extras)
      ensures k in KeysOf(rest) <==> k in KeysOf(extras) && k != key
    {
      if e :| e in extras && e.key == k && k != key {
        assert e in marked && e in rest;
      }
      assert extras[index] in extras && Extra(key, true) in marked;
    }
  }

  class ExtraAttempt {
    const repoKey: Id
    ghost const original: set<Id>
    var extras: seq<Extra>
    var commits: Commits
    var written: Option<Commits>
    var registered: bool
    ghost var removed: set<Id>
    ghost var log: seq<Done>

    ghost predicate Valid()
      reads this
    {
      && UniqueKeys(extras) && repoKey !in original
      // Nothing is lost and nothing is removed twice.
      && KeysOf(extras) + removed == original && KeysOf(extras) !! removed
      && PublishedFirst(log) && PublishedOnce(log) && AllRecorded(log, commits)
      && (forall i :: 0 <= i < |log| ==> log[i].key in original)
      && (forall e :: e in extras ==> (e.published <==> Succeeded(log, e.key)))
    }

    constructor (repoKey: Id, extras: seq<Extra>)
      requires UniqueKeys(extras) && repoKey !in KeysOf(extras) && forall e :: e in extras ==> !e.published
      ensures Valid() && this.extras == extras && original == KeysOf(extras) && removed == {} && log == []
    {
      this.repoKey, this.extras, original := repoKey, extras, KeysOf(extras);
      commits, written, registered, removed, log := [], None, true, {}, [];
    }

    method WriteCommits() returns (thrown: bool)
      modifies this`written
      ensures written == if thrown then old(written) else Some(commits)
    {
      thrown := *;
      if !thrown {
        written := Some(commits);
      }
    }

    // Tries to publish one extra that has not been published yet. A failure is an event, which may fail too.
    method Publish(key: Id) returns (eventLost: bool)
      requires Valid() && key in KeysOf(extras)
      modifies this`extras, this`commits, this`log
      ensures Valid() && KeysOf(extras) == old(KeysOf(extras)) && old(log) <= log
      ensures Tried(log, key)
      // One try, unless it has been published already.
      ensures if Extra(key, true) in old(extras) then log == old(log)
              else exists commit :: log == old(log) + [PublishTried(key, commit)]
      ensures Has(old(commits), repoKey) ==> Has(commits, repoKey)
    {
      var index := IndexOf(extras, key);
      if extras[index].published {
        assert extras[index] in extras;
        return false;
      }
      var commit: Option<Id> := *;
      assert extras[index] in extras;
      LogGrows(log, PublishTried(key, commit));
      SameKeys(extras, index);
      if commit.Some? {
        SetExactly(commits, key, commit.value);
        commits := Set(commits, key, commit.value);
        extras := extras[index := Extra(key, true)];
      }
      log := log + [PublishTried(key, commit)];
      eventLost := *;
      eventLost := eventLost && commit == None;
    }

    // Tries to remove one extra after it was tried to publish; a removed one leaves the list.
    method Remove(key: Id) returns (gone: bool)
      requires Valid() && key in KeysOf(extras) && Tried(log, key)
      modifies this`extras, this`removed, this`log
      ensures Valid() && log == old(log) + [RemoveTried(key, gone)]
      ensures KeysOf(extras) == if gone then old(KeysOf(extras)) - {key} else old(KeysOf(extras))
      ensures removed == if gone then old(removed) + {key} else old(removed)
    {
      gone := *;
      LogGrows(log, RemoveTried(key, gone));
      log := log + [RemoveTried(key, gone)];
      if gone {
        var index := IndexOf(extras, key);
        SameKeys(extras, index);
        extras := extras[..index] + extras[index + 1..];
        removed := removed + {key};
      }
    }

    // What a pass does for one extra; what it did for the ones before stands.
    method PublishAndRemove(key: Id, throwOnRemoveFailure: bool, ghost pending: seq<Extra>, ghost k: nat, ghost from: nat)
      returns (end: PassEnd)
      requires Valid() && key in KeysOf(extras) && from <= |log|
      requires k < |pending| && pending[k].key == key && forall m :: 0 <= m < k ==> Visited(log, from, pending[m].key)
      modifies this`extras, this`commits, this`removed, this`log
      ensures Valid() && old(log) <= log && old(removed) <= removed
      ensures KeysOf(extras) == old(KeysOf(extras)) || KeysOf(extras) == old(KeysOf(extras)) - {key}
      ensures end == Through && throwOnRemoveFailure ==> key !in KeysOf(extras)
      ensures end == RemovalFailed ==> throwOnRemoveFailure && key in KeysOf(extras)
      ensures end != WriteFailed && end != CleanupFailed
      ensures Has(old(commits), repoKey) ==> Has(commits, repoKey)
      ensures end == Through ==> forall m :: 0 <= m <= k ==> Visited(log, from, pending[m].key)
    {
      var lost := Publish(key);
      if lost {
        return EventFailed;
      }
      var gone := Remove(key);
      forall m | 0 <= m <= k
        ensures Visited(log, from, pending[m].key)
      {
        if m < k {
          VisitedStays(old(log), log, from, pending[m].key);
        } else {
          LastVisited(from, key);
        }
      }
      end := Through;
      if !gone {
        lost := *;
        end := if throwOnRemoveFailure then RemovalFailed else if lost then EventFailed else Through;
      }
    }

    lemma LastVisited(from: nat, key: Id)
      requires from < |log| && log[|log| - 1].RemoveTried? && log[|log| - 1].key == key && Valid()
      ensures Visited(log, from, key)
    {
      var n := |log| - 1;
      assert Tried(log[..n], key);
      var i :| 0 <= i < n && log[..n][i].PublishTried? && log[..n][i].key == key;
      assert log[i].PublishTried?;
    }

    // Everything a pass may rely on, part way through.
    twostate predicate Underway(pending: seq<Extra>, k: nat, throwOnRemoveFailure: bool)
      requires k <= |pending|
      reads this
    {
      && Valid() && old(log) <= log && old(removed) <= removed
      && (forall m :: 0 <= m < k ==> Visited(log, |old(log)|, pending[m].key))
      && KeysOf(pending[k..]) <= KeysOf(extras)
      && (throwOnRemoveFailure ==> KeysOf(extras) <= KeysOf(pending[k..]))
      && (Has(old(commits), repoKey) ==> Has(commits, repoKey))
    }

    // The loop over the extras. A throwing pass stops at the first that cannot be removed.
    method VisitAll(throwOnRemoveFailure: bool) returns (end: PassEnd)
      requires Valid()
      modifies this`extras, this`commits, this`removed, this`log
      ensures end == RemovalFailed ==> throwOnRemoveFailure && extras != []
      ensures end != WriteFailed && end != CleanupFailed
      ensures Valid() && old(log) <= log && old(removed) <= removed
      ensures Has(old(commits), repoKey) ==> Has(commits, repoKey)
      ensures end == Through ==> forall e :: e in old(extras) ==> Visited(log, |old(log)|, e.key)
      ensures end == Through && throwOnRemoveFailure ==> KeysOf(extras) == {}
    {
      var pending, k := extras, 0;
      assert pending[0..] == pending;
      end := Through;
      while k < |pending|
        invariant 0 <= k <= |pending| && UniqueKeys(pending) && pending == old(extras) && end == Through
        invariant Underway(pending, k, throwOnRemoveFailure)
      {
        Rest(pending, k);
        end := PublishAndRemove(pending[k].key, throwOnRemoveFailure, pending, k, |old(log)|);
        if end != Through {
          return;
        }
        k := k + 1;
      }
    }

    lemma Rest(pending: seq<Extra>, k: nat)
      requires k < |pending| && UniqueKeys(pending)
      ensures KeysOf(pending[k..]) == {pending[k].key} + KeysOf(pending[k + 1..]) && pending[k].key !in KeysOf(pending[k + 1..])
    {
      assert pending[k..] == [pending[k]] + pending[k + 1..];
      forall e | e in pending[k + 1..]
        ensures e.key != pending[k].key
      {
        var m :| 0 <= m < |pending[k + 1..]| && pending[k + 1..][m] == e;
        assert e == pending[k + 1 + m];
      }
    }

    // One pass, throwing or best-effort. Whatever fails, extras still listed and extras removed are together
    // the original ones. A pass that gets through has tried to publish and then to remove every extra it found,
    // and a throwing one has removed them all, even if the last clean-up throws; one that a removal stops has still written every commit so far.
    method Settle(primaryCommit: Option<Id>, throwOnRemoveFailure: bool) returns (end: PassEnd)
      requires Valid()
      modifies this
      ensures Valid() && old(log) <= log && old(removed) <= removed
      ensures !old(registered) ==>
                end == Through && extras == old(extras) && commits == old(commits) && log == old(log) && written == old(written)
      ensures (old(registered) && AllDone(end)) || end == RemovalFailed ==> written == Some(commits)
      ensures end == WriteFailed || end == EventFailed ==> written == old(written)
      ensures old(registered) ==> (registered <==> !AllDone(end))
      ensures old(registered) && AllDone(end) ==> forall e :: e in old(extras) ==> Visited(log, |old(log)|, e.key)
      ensures old(registered) && AllDone(end) && throwOnRemoveFailure ==> KeysOf(extras) == {} && removed == original
      ensures end == RemovalFailed ==> throwOnRemoveFailure && extras != []
      ensures old(registered) && primaryCommit.Some? ==> Has(commits, repoKey)
    {
      if !registered {
        return Through;
      }
      if primaryCommit.Some? && !Has(commits, repoKey) {
        commits := [(repoKey, primaryCommit.value)] + commits;
        assert commits[0].0 == repoKey;
      }
      end := VisitAll(throwOnRemoveFailure);
      if end == EventFailed {
        return;
      }
      var thrown := WriteCommits();
      if thrown {
        return WriteFailed;
      }
      if end == Through {
        registered := false;
        var swept: bool := *;
        end := if swept then Through else CleanupFailed;
      }
    }
  }
}
