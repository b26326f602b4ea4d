/** The worker's per-model token breakdown. Counts are unbounded here; model names are compared by a total
    order, as JavaScript compares strings. A Map is the sequence of its entries in insertion order. */
module ModelUsage {
  import opened Basics

  datatype Usage = Usage(model: int, input: nat, output: nat, cacheRead: nat, cacheWrite: nat)

  function Tokens(e: Usage): nat {
    e.input + e.output + e.cacheRead + e.cacheWrite
  }

  function Plus(a: Usage, b: Usage): Usage {
    Usage(a.model, a.input + b.input, a.output + b.output, a.cacheRead + b.cacheRead, a.cacheWrite + b.cacheWrite)
  }

  function Sum(entries: seq<Usage>): nat {
    if entries == [] then 0 else Tokens(entries[0]) + Sum(entries[1..])
  }

  // A breakdown is put on record only when it has entries and they add up.
  function Reconciled(entries: Option<seq<Usage>>, tokens: Option<nat>): Option<seq<Usage>> {
    if entries == None || entries.value == [] || tokens == None then None
    else if Sum(entries.value) == tokens.value then entries
    else None
  }

  function Lookup(entries: seq<Usage>, model: int): Option<Usage> {
    if entries == [] then None
    else if entries[0].model == model then Some(entries[0])
    else Lookup(entries[1..], model)
  }

  function Merge(entries: seq<Usage>, e: Usage): seq<Usage> {
    if entries == [] then [e]
    else if entries[0].model == e.model then [Plus(entries[0], e)] + entries[1..]
    else [entries[0]] + Merge(entries[1..], e)
  }

  predicate Unique(entries: seq<Usage>) {
    forall i, j :: 0 <= i < j < |entries| ==> entries[i].model != entries[j].model
  }

  predicate Ascending(entries: seq<Usage>) {
    forall i, j :: 0 <= i < j < |entries| ==> entries[i].model < entries[j].model
  }

  function Insert(entries: seq<Usage>, e: Usage): seq<Usage> {
    if entries == [] then [e]
    else if e.model < entries[0].model then [e] + entries
    else [entries[0]] + Insert(entries[1..], e)
  }

  function SortByModel(entries: seq<Usage>): seq<Usage> {
    if entries == [] then [] else Insert(SortByModel(entries[1..]), entries[0])
  }

  // Everything ever reported for one model, added up.
  function Total(history: seq<Usage>, model: int): Option<Usage> {
    if history == [] then None
    else
      var n := |history| - 1;
      var before := Total(history[..n], model);
      if history[n].model != model then before
      else if before == None then Some(history[n])
      else Some(Plus(before.value, history[n]))
  }

  lemma {:induction false} MergeKeeps(entries: seq<Usage>, e: Usage, model: int)
    ensures Sum(Merge(entries, e)) == Sum(entries) + Tokens(e)
    ensures Lookup(Merge(entries, e), model) ==
              if model != e.model then Lookup(entries, model)
              else if Lookup(entries, model) == None then Some(e)
              else Some(Plus(Lookup(entries, model).value, e))
  {
    if entries != [] && entries[0].model != e.model {
      MergeKeeps(entries[1..], e, model);
    } else if entries == [] {
      assert Merge(entries, e) == [e];
    }
  }

  lemma {:induction false} LookupFinds(entries: seq<Usage>, model: int)
    ensures Lookup(entries, model).Some? ==> Lookup(entries, model).value in entries && Lookup(entries, model).value.model == model
    ensures Lookup(entries, model) == None <==> (forall i :: 0 <= i < |entries| ==> entries[i].model != model)
  {
    if entries != [] {
      LookupFinds(entries[1..], model);
      assert forall i :: 1 <= i < |entries| ==> entries[i] == entries[1..][i - 1];
    }
  }

  lemma {:induction false} MergeUnique(entries: seq<Usage>, e: Usage)
    requires Unique(entries)
    ensures Unique(Merge(entries, e))
    ensures forall k :: 0 <= k < |Merge(entries, e)| ==>
              Merge(entries, e)[k].model == e.model || exists i :: 0 <= i < |entries| && entries[i].model == Merge(entries, e)[k].model
  {
    if entries != [] {
      if entries[0].model == e.model {
        assert forall k :: 0 <= k < |entries| ==> Merge(entries, e)[k].model == entries[k].model;
      } else {
        MergeUnique(entries[1..], e);
        var rest := Merge(entries[1..], e);
        forall k | 0 <= k < |rest|
          ensures rest[k].model != entries[0].model
          ensures rest[k].model == e.model || exists i :: 0 <= i < |entries| && entries[i].model == rest[k].model
        {
          if rest[k].model != e.model {
            var i :| 0 <= i < |entries[1..]| && entries[1..][i].model == rest[k].model;
            assert entries[i + 1].model == rest[k].model;
          }
        }
      }
    }
  }

  lemma {:induction false} InsertKeeps(entries: seq<Usage>, e: Usage, model: int)
    requires Ascending(entries) && Lookup(entries, e.model) == None
    ensures Ascending(Insert(entries, e)) && Insert(entries, e) != []
    ensures Insert(entries, e)[0].model == e.model || (entries != [] && Insert(entries, e)[0] == entries[0])
    ensures Insert(entries, e)[0].model <= e.model
    ensures Sum(Insert(entries, e)) == Sum(entries) + Tokens(e)
    ensures Lookup(Insert(entries, e), model) == if model == e.model then Some(e) else Lookup(entries, model)
  {
    if entries == [] {
    } else if e.model < entries[0].model {
      assert ([e] + entries)[1..] == entries;
    } else {
      InsertKeeps(entries[1..], e, model);
      assert Insert(entries, e)[1..] == Insert(entries[1..], e);
    }
  }

  // Sorting a Map's entries loses nothing, repeats nothing and puts them in strictly ascending order.
  lemma {:induction false} SortKeeps(entries: seq<Usage>, model: int)
    requires Unique(entries)
    ensures Ascending(SortByModel(entries)) && Sum(SortByModel(entries)) == Sum(entries)
    ensures (SortByModel(entries) == []) == (entries == [])
    ensures Lookup(SortByModel(entries), model) == Lookup(entries, model)
  {
    if entries != [] {
      SortKeeps(entries[1..], model);
      SortKeeps(entries[1..], entries[0].model);
      LookupFinds(entries[1..], entries[0].model);
      InsertKeeps(SortByModel(entries[1..]), entries[0], model);
    }
  }

  // A phase is explained when it spent nothing and said nothing, or its own breakdown adds up.
  predicate Explained(tokenUsage: nat, modelUsage: Option<seq<Usage>>) {
    if modelUsage == None then tokenUsage == 0 else Reconciled(modelUsage, Some(tokenUsage)).Some?
  }

  class Accumulator {
    var byModel: Option<seq<Usage>>
    ghost var history: seq<Usage>
    ghost var spent: nat

    ghost predicate Valid()
      reads this
    {
      byModel.Some? ==>
        && Unique(byModel.value)
        && Sum(byModel.value) == spent
        && (byModel.value == [] <==> history == [])
        && forall m :: Lookup(byModel.value, m) == Total(history, m)
    }

    constructor ()
      ensures Valid() && byModel == Some([]) && history == [] && spent == 0
    {
      byModel, history, spent := Some([]), [], 0;
    }

    method AddEntries(entries: seq<Usage>)
      requires Valid() && byModel.Some?
      modifies this
      ensures byModel.Some? && history == old(history) + entries && spent == old(spent) + Sum(entries) && Valid()
    {
      var k := 0;
      while k < |entries|
        invariant 0 <= k <= |entries|
        invariant byModel.Some? && history == old(history) + entries[..k]
        invariant spent + Sum(entries[k..]) == old(spent) + Sum(entries)
        invariant Valid()
      {
        var merged := Merge(byModel.value, entries[k]);
        MergeUnique(byModel.value, entries[k]);
        forall m
          ensures Lookup(merged, m) == Total(history + [entries[k]], m)
        {
          MergeKeeps(byModel.value, entries[k], m);
          assert (history + [entries[k]])[..|history|] == history;
        }
        MergeKeeps(byModel.value, entries[k], 0);
        assert entries[..k + 1] == entries[..k] + [entries[k]];
        byModel := Some(merged);
        history := history + [entries[k]];
        spent := spent + Tokens(entries[k]);
        k := k + 1;
      }
      assert entries[..k] == entries;
    }

    // Called for each settled phase whose token usage is known, with the running count it brings.
    method Settle(tokenUsage: nat, modelUsage: Option<seq<Usage>>, cumulativeTokens: nat) returns (answer: Option<seq<Usage>>)
      requires Valid() && (byModel.Some? ==> cumulativeTokens == spent + tokenUsage)
      modifies this
      ensures Valid() && (byModel.Some? ==> spent == cumulativeTokens)
      // The breakdown survives exactly while every phase has been explained,
      ensures byModel.Some? <==> old(byModel).Some? && Explained(tokenUsage, modelUsage)
      ensures byModel.Some? ==> history == old(history) + (if modelUsage == None then [] else modelUsage.value)
      // is answered exactly while it survives and is not empty,
      ensures answer.Some? <==> byModel.Some? && history != []
      // and then holds every model ever reported, once, in order, with everything reported for it.
      ensures answer.Some? ==> Ascending(answer.value) && Sum(answer.value) == cumulativeTokens
      ensures answer.Some? ==> forall m :: Lookup(answer.value, m) == Total(history, m)
    {
      if byModel == None {
        return None;
      }
      if modelUsage == None {
        if tokenUsage > 0 {
          byModel := None;
        }
      } else if Reconciled(modelUsage, Some(tokenUsage)) == None {
        byModel := None;
      } else {
        AddEntries(modelUsage.value);
      }
      if byModel == None {
        return None;
      }
      var entries := SortByModel(byModel.value);
      forall m
        ensures Lookup(entries, m) == Total(history, m)
      {
        SortKeeps(byModel.value, m);
      }
      SortKeeps(byModel.value, 0);
      answer := Reconciled(Some(entries), Some(cumulativeTokens));
    }
  }
}
