/** The second half of the producer's symbol closure (internal/typefacts/symbol_closure.go):
the full-tier fixed point and the reference lists. */
module ClosureReferences {
  import opened Order
  import opened SortedRows
  import opened Facts
  import opened SymbolPrograms
  import opened SymbolStores
  import opened SymbolStorePatches

  /** The drained facts: one for every reached symbol, no references yet. */
  ghost predicate BareFacts(program: Program, reached: set<SymbolID>, facts: seq<Row<SymbolBody>>) {
    && DistinctKeys(facts) && IDs(facts) == reached
    && (forall k :: 0 <= k < |facts| ==> facts[k].value == Bare(program, facts[k].key))
  }

  lemma BareAt(program: Program, reached: set<SymbolID>, facts: seq<Row<SymbolBody>>, k: nat)
    requires BareFacts(program, reached, facts) && k < |facts|
    ensures facts[k].key in reached && facts[k].value == Bare(program, facts[k].key)
    ensures facts[k].value.aliasTarget == AliasOf(program, facts[k].key)
  {
    hide AliasOf;
  }

  // --- the full tier ---

  ghost predicate EdgesTo(facts: seq<Row<SymbolBody>>, full: set<SymbolID>, n: nat)
    requires n <= |facts|
  {
    forall k :: 0 <= k < n && facts[k].key in full && facts[k].value.aliasTarget != "" ==> facts[k].value.aliasTarget in full
  }

  /** Full tier propagates along alias edges to its own fixed point. */
  method PropagateFullTier(ghost program: Program, ghost reached: set<SymbolID>, facts: seq<Row<SymbolBody>>, seeds: set<SymbolID>)
    returns (full: set<SymbolID>)
    requires BareFacts(program, reached, facts) && AliasClosed(program, reached) && seeds <= reached
    ensures LeastClosed(program, seeds, full) && full <= reached
  {
    hide *;
    full := seeds;
    TierStart(program, seeds);
    var changed := true;
    while changed
      invariant seeds <= full <= reached && Within(program, seeds, full)
      invariant !changed ==> EdgesTo(facts, full, |facts|)
      decreases |reached - full| + if changed then 1 else 0
    {
      changed := false;
      ghost var before := full;
      NoEdges(facts, full);
      for index := 0 to |facts|
        invariant seeds <= before <= full <= reached && Within(program, seeds, full)
        invariant changed ==> before < full
        invariant !changed ==> full == before && EdgesTo(facts, full, index)
      {
        var target := facts[index].value.aliasTarget;
        BareAt(program, reached, facts, index);
        EdgeNext(facts, full, index);
        if target != "" && facts[index].key in full && target !in full {
          WithinStep(program, seeds, full, facts[index].key);
          ClosedStep(program, reached, facts[index].key);
          full := full + {target};
          changed := true;
        }
      }
      if changed { Shrinks(reached, before, full); }
    }
    TierEnd(program, reached, facts, full);
    TierLeast(program, seeds, full);
  }

  lemma TierStart(program: Program, seeds: set<SymbolID>)
    ensures Within(program, seeds, seeds)
  {
  }

  lemma NoEdges(facts: seq<Row<SymbolBody>>, full: set<SymbolID>)
    ensures EdgesTo(facts, full, 0)
  {
  }

  lemma EdgeNext(facts: seq<Row<SymbolBody>>, full: set<SymbolID>, n: nat)
    requires n < |facts|
    ensures facts[n].value.aliasTarget == "" || facts[n].key !in full || facts[n].value.aliasTarget in full ==>
      (EdgesTo(facts, full, n) ==> EdgesTo(facts, full, n + 1))
  {
  }

  lemma ClosedStep(program: Program, reached: set<SymbolID>, id: SymbolID)
    requires AliasClosed(program, reached) && id in reached && AliasOf(program, id) != ""
    ensures AliasOf(program, id) in reached
  {
    hide AliasOf;
  }

  lemma Shrinks(reached: set<SymbolID>, before: set<SymbolID>, full: set<SymbolID>)
    requires before < full <= reached
    ensures |reached - full| < |reached - before|
  {
    assert reached - full < reached - before;
    SmallerSize(reached - full, reached - before);
  }

  lemma SmallerSize<T>(a: set<T>, b: set<T>)
    requires a < b
    ensures |a| < |b|
  {
    var x :| x in b && x !in a;
    assert a <= b - {x};
    SubsetCount(a, b - {x});
  }

  lemma TierEnd(program: Program, reached: set<SymbolID>, facts: seq<Row<SymbolBody>>, full: set<SymbolID>)
    requires BareFacts(program, reached, facts) && AliasClosed(program, reached) && full <= reached && EdgesTo(facts, full, |facts|)
    ensures AliasClosed(program, full)
  {
    hide AliasOf, DistinctKeys;
    forall id | id in full && AliasOf(program, id) != "" ensures AliasOf(program, id) in full {
      assert id in IDs(facts);
      var k :| 0 <= k < |facts| && facts[k].key == id;
    }
  }

  lemma TierLeast(program: Program, seeds: set<SymbolID>, full: set<SymbolID>)
    requires AliasClosed(program, full) && seeds <= full && Within(program, seeds, full)
    ensures LeastClosed(program, seeds, full)
  {
    hide AliasClosed, Within;
  }

  // --- reference lists, the general path ---

  /** Only a full-tier symbol that is no alias carries a reference list. */
  predicate IsEligible(fact: Row<SymbolBody>, full: set<SymbolID>) {
    fact.value.aliasTarget == "" && fact.key in full
  }

  ghost predicate EligibleTo(facts: seq<Row<SymbolBody>>, full: set<SymbolID>, n: nat, ids: set<SymbolID>)
    requires n <= |facts|
  {
    forall id :: id in ids <==> exists k :: 0 <= k < n && facts[k].key == id && IsEligible(facts[k], full)
  }

  lemma EligibleNext(facts: seq<Row<SymbolBody>>, full: set<SymbolID>, n: nat, ids: set<SymbolID>)
    requires n < |facts| && EligibleTo(facts, full, n, ids) && DistinctKeys(facts)
    ensures EligibleTo(facts, full, n + 1, if IsEligible(facts[n], full) then ids + {facts[n].key} else ids)
    ensures facts[n].key !in ids
  {
    var next := if IsEligible(facts[n], full) then ids + {facts[n].key} else ids;
    forall id ensures id in next <==> exists k :: 0 <= k < n + 1 && facts[k].key == id && IsEligible(facts[k], full) {
      if id in ids {
        var k :| 0 <= k < n && facts[k].key == id && IsEligible(facts[k], full);
      }
    }
  }

  lemma EligibleNone(facts: seq<Row<SymbolBody>>, full: set<SymbolID>)
    ensures EligibleTo(facts, full, 0, {})
  {
  }

  lemma EligibleIs(program: Program, reached: set<SymbolID>, facts: seq<Row<SymbolBody>>, full: set<SymbolID>, ids: set<SymbolID>)
    requires BareFacts(program, reached, facts) && EligibleTo(facts, full, |facts|, ids)
    ensures forall id :: id in ids <==> Eligible(program, reached, full, id)
  {
    hide AliasOf, DistinctKeys;
    forall id ensures id in ids <==> Eligible(program, reached, full, id) {
      if Eligible(program, reached, full, id) {
        assert id in IDs(facts);
        var k :| 0 <= k < |facts| && facts[k].key == id;
        assert IsEligible(facts[k], full);
      }
    }
  }

  /** The facts with their reference lists assigned. */
  function Assigned(facts: seq<Row<SymbolBody>>, lists: References): (rows: seq<Row<SymbolBody>>)
    ensures |rows| == |facts|
    ensures forall k :: 0 <= k < |facts| ==>
      rows[k] == Row(facts[k].key, facts[k].value.(references := if facts[k].key in lists then lists[facts[k].key] else []))
  {
    seq(|facts|, k requires 0 <= k < |facts| =>
      Row(facts[k].key, facts[k].value.(references := if facts[k].key in lists then lists[facts[k].key] else [])))
  }

  lemma AssignedFresh(program: Program, reached: set<SymbolID>, facts: seq<Row<SymbolBody>>, full: set<SymbolID>, lists: References)
    requires BareFacts(program, reached, facts) && FreshReferences(program, reached, full, lists)
    ensures forall k :: 0 <= k < |facts| ==> Assigned(facts, lists)[k] == Row(facts[k].key, Fresh(program, full, facts[k].key))
    ensures FreshRows(program, reached, full, SortRows(Assigned(facts, lists)))
    ensures DistinctKeys(Assigned(facts, lists)) && IDs(Assigned(facts, lists)) == reached
  {
    hide Less, Find;
    var rows := Assigned(facts, lists);
    forall k | 0 <= k < |facts| ensures rows[k] == Row(facts[k].key, Fresh(program, full, facts[k].key)) && facts[k].key in reached {
      BareAt(program, reached, facts, k);
    }
    assert IDs(rows) == IDs(facts);
    SortRowsMeaning(rows);
    forall id ensures Find(rows, id) == if id in reached then Some(Fresh(program, full, id)) else None {
      FindInIDs(rows, id);
      if id in reached {
        assert id in IDs(rows);
        var k :| 0 <= k < |rows| && rows[k].key == id;
        FindDistinct(rows, k);
      }
    }
  }

  /** The reference loop: retained lists where the exact delta says they are current, one
  batch for the rest; an exact delta lets the retained map itself be pruned and reused. */
  method CloseReferences(program: Program, ghost reached: set<SymbolID>, facts: seq<Row<SymbolBody>>, full: set<SymbolID>,
      delta: Delta, cached: Option<References>)
    returns (rows: seq<Row<SymbolBody>>, references: References)
    requires BareFacts(program, reached, facts)
    requires cached.Some? ==> DeltaCovers(program, cached.value, delta)
    ensures FreshReferences(program, reached, full, references) && rows == Assigned(facts, references)
  {
    hide *;
    var exact := cached.Some? && delta.exact;
    var ids, refresh, lent := LendLists(program, reached, facts, full, delta, cached);
    var lists := ReadBatch(program, refresh, lent);
    EligibleIs(program, reached, facts, full, ids);
    ListsCurrent(program, lent, refresh, lists);
    FreshIs(program, reached, full, lists);
    rows := Assigned(facts, lists);
    references := lists;
    if exact {
      references := Pruned(cached.value, ids);
      references := ReadBatch(program, refresh, references);
      assert references.Keys == lists.Keys;
      assert references == lists;
    }
  }

  /** The symbols due a list, split into those whose retained list is current and those to read. */
  method LendLists(program: Program, ghost reached: set<SymbolID>, facts: seq<Row<SymbolBody>>, full: set<SymbolID>,
      delta: Delta, cached: Option<References>)
    returns (ids: set<SymbolID>, refresh: set<SymbolID>, lists: References)
    requires BareFacts(program, reached, facts)
    requires cached.Some? ==> DeltaCovers(program, cached.value, delta)
    ensures EligibleTo(facts, full, |facts|, ids)
    ensures lists.Keys + refresh == ids && lists.Keys !! refresh
    ensures forall id :: id in lists ==> lists[id] == FactOf(program, id).references
    ensures cached.Some? && delta.exact ==> lists.Keys <= cached.value.Keys && forall id :: id in lists ==> lists[id] == cached.value[id]
  {
    hide *;
    var exact := cached.Some? && delta.exact;
    ids, refresh, lists := {}, {}, map[];
    EligibleNone(facts, full);
    BareDistinct(program, reached, facts);
    for k := 0 to |facts|
      invariant EligibleTo(facts, full, k, ids)
      invariant lists.Keys + refresh == ids && lists.Keys !! refresh
      invariant exact ==> lists.Keys <= cached.value.Keys && forall id :: id in lists ==> lists[id] == cached.value[id]
      invariant forall id :: id in lists ==> lists[id] == FactOf(program, id).references
    {
      var id := facts[k].key;
      EligibleNext(facts, full, k, ids);
      EligibleMeans(facts[k], full);
      if facts[k].value.aliasTarget == "" && id in full {
        ids := ids + {id};
        if !exact || id !in cached.value || id in delta.ids {
          refresh := refresh + {id};
        } else {
          Covered(program, cached.value, delta, id);
          lists := lists[id := cached.value[id]];
        }
      }
    }
  }

  /** The batch capability: one list for every requested symbol; absence is a known-empty list. */
  method ReadBatch(program: Program, refresh: set<SymbolID>, lists: References) returns (next: References)
    ensures next.Keys == lists.Keys + refresh
    ensures forall id :: id in next ==> next[id] == if id in refresh then FactOf(program, id).references else lists[id]
  {
    hide *;
    next := lists;
    var remaining := refresh;
    BatchStep(program, lists, next, {}, "");
    TakenStep(refresh, refresh, "");
    while remaining != {}
      invariant remaining <= refresh && BatchRead(program, lists, next, refresh - remaining)
      decreases |remaining|
    {
      var id :| id in remaining;
      BatchStep(program, lists, next, refresh - remaining, id);
      TakenStep(refresh, remaining, id);
      remaining := remaining - {id};
      next := next[id := FactOf(program, id).references];
    }
    TakenStep(refresh, {}, "");
    BatchDone(program, lists, next, refresh);
  }

  ghost predicate BatchRead(program: Program, lists: References, next: References, done: set<SymbolID>) {
    && next.Keys == lists.Keys + done
    && (forall id :: id in next ==> next[id] == if id in done then FactOf(program, id).references else lists[id])
  }

  lemma TakenStep(all: set<SymbolID>, remaining: set<SymbolID>, id: SymbolID)
    ensures id in remaining && remaining <= all ==> (all - remaining) + {id} == all - (remaining - {id})
    ensures all - all == {} && all - {} == all
  {
  }

  lemma BatchStep(program: Program, lists: References, next: References, done: set<SymbolID>, id: SymbolID)
    ensures BatchRead(program, lists, lists, {})
    ensures BatchRead(program, lists, next, done) ==>
      BatchRead(program, lists, next[id := FactOf(program, id).references], done + {id})
  {
    hide FactOf;
  }

  lemma BatchDone(program: Program, lists: References, next: References, done: set<SymbolID>)
    requires BatchRead(program, lists, next, done)
    ensures next.Keys == lists.Keys + done
    ensures forall id :: id in next ==> next[id] == if id in done then FactOf(program, id).references else lists[id]
  {
    hide FactOf;
  }

  lemma ListsCurrent(program: Program, lent: References, refresh: set<SymbolID>, lists: References)
    requires lists.Keys == lent.Keys + refresh
    requires forall id :: id in lent ==> lent[id] == FactOf(program, id).references
    requires forall id :: id in lists ==> lists[id] == if id in refresh then FactOf(program, id).references else lent[id]
    ensures forall id :: id in lists ==> lists[id] == FactOf(program, id).references
  {
    hide FactOf;
  }

  lemma BareDistinct(program: Program, reached: set<SymbolID>, facts: seq<Row<SymbolBody>>)
    requires BareFacts(program, reached, facts)
    ensures DistinctKeys(facts)
  {
    hide DistinctKeys, Bare;
  }

  lemma EligibleMeans(fact: Row<SymbolBody>, full: set<SymbolID>)
    ensures IsEligible(fact, full) <==> fact.value.aliasTarget == "" && fact.key in full
  {
  }

  lemma Covered(program: Program, cached: References, delta: Delta, id: SymbolID)
    requires DeltaCovers(program, cached, delta) && delta.exact && id in cached && id !in delta.ids
    ensures cached[id] == FactOf(program, id).references
  {
    hide FactOf;
  }

  lemma FreshIs(program: Program, reached: set<SymbolID>, full: set<SymbolID>, lists: References)
    requires forall id :: id in lists <==> Eligible(program, reached, full, id)
    requires forall id :: id in lists ==> lists[id] == FactOf(program, id).references
    ensures FreshReferences(program, reached, full, lists)
  {
    hide FactOf, Eligible;
  }

  /** Departed and non-reference symbols leave the retained map. */
  method Pruned(cached: References, ids: set<SymbolID>) returns (references: References)
    ensures references.Keys == cached.Keys * ids && forall id :: id in references ==> references[id] == cached[id]
  {
    references := cached;
    var remaining := cached.Keys;
    while remaining != {}
      invariant remaining <= cached.Keys
      invariant references.Keys == set id | id in cached && (id in ids || id in remaining)
      invariant forall id :: id in references ==> references[id] == cached[id]
      decreases |remaining|
    {
      var id :| id in remaining;
      remaining := remaining - {id};
      if id !in ids { references := references - {id}; }
    }
  }
}
