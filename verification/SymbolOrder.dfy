/** Canonical ordering of one generation's symbol facts
(internal/typefacts/symbol_closure.go). The preceding generation's order is reused where
it can be; on every branch the result is the sort of the facts by ID. */
module SymbolOrders {
  import opened Order
  import opened SortedRows
  import opened Facts
  import opened SymbolStores
  import opened SymbolStorePatches

  type Interner = map<SymbolID, nat>

  ghost predicate InternerValid(interner: Interner) {
    && (forall id :: id in interner ==> interner[id] < |interner|)
    && (forall a, b :: a in interner && b in interner && interner[a] == interner[b] ==> a == b)
  }

  /** The position of a fact by its handle, offset by one; zero where the fact is absent
  or already taken. */
  ghost predicate Indexed(facts: seq<Row<SymbolBody>>, index: seq<nat>, interner: Interner, taken: set<SymbolID>) {
    && (forall k :: 0 <= k < |facts| ==> facts[k].key in interner && interner[facts[k].key] < |index|)
    && (forall k :: 0 <= k < |facts| ==> index[interner[facts[k].key]] == if facts[k].key in taken then 0 else k + 1)
    && (forall h :: 0 <= h < |index| && index[h] != 0 ==> Holds(facts, index, interner, h))
  }

  ghost predicate Holds(facts: seq<Row<SymbolBody>>, index: seq<nat>, interner: Interner, h: nat)
    requires h < |index|
  {
    0 < index[h] <= |facts| && facts[index[h] - 1].key in interner && interner[facts[index[h] - 1].key] == h
  }

  /** `factFor`: the handle of a fact still in the index. */
  method FactFor(facts: seq<Row<SymbolBody>>, index: array<nat>, interner: Interner, id: SymbolID, ghost taken: set<SymbolID>)
    returns (handle: Option<nat>)
    requires InternerValid(interner) && DistinctKeys(facts) && Indexed(facts, index[..], interner, taken)
    ensures handle.Some? ==> handle.value < index.Length && id in interner && interner[id] == handle.value
    ensures handle.Some? ==> 0 < index[handle.value] <= |facts| && facts[index[handle.value] - 1].key == id
    ensures handle.Some? <==> Find(facts, id).Some? && id !in taken
    ensures handle.Some? ==> Find(facts, id) == Some(facts[index[handle.value] - 1].value)
  {
    hide Less, Find;
    FindAbsent(facts, id);
    if id !in interner || interner[id] >= index.Length || index[interner[id]] == 0 { return None; }
    assert Holds(facts, index[..], interner, interner[id]);
    FindDistinct(facts, index[interner[id]] - 1);
    handle := Some(interner[id]);
  }

  // --- counting ---

  lemma {:induction false} AtMostLength(rows: seq<Row<SymbolBody>>)
    ensures |IDs(rows)| <= |rows|
  {
    if rows != [] {
      var front := rows[..|rows| - 1];
      AtMostLength(front);
      assert IDs(rows) == IDs(front) + {rows[|rows| - 1].key};
    }
  }

  /** As many ordered rows as facts, each one of the facts: nothing is missing. */
  lemma AllTaken(ordered: seq<Row<SymbolBody>>, facts: seq<Row<SymbolBody>>)
    requires Sorted(ordered) && |ordered| == |facts|
    requires forall id :: Find(ordered, id).Some? ==> Find(ordered, id) == Find(facts, id)
    ensures ordered == SortRows(facts)
  {
    hide Find, Less;
    CountIDs(ordered);
    AtMostLength(facts);
    forall id ensures (Find(ordered, id).Some? <==> id in IDs(ordered)) && (Find(facts, id).Some? <==> id in IDs(facts)) {
      FindInIDs(ordered, id);
      FindInIDs(facts, id);
    }
    assert IDs(ordered) <= IDs(facts);
    if |IDs(facts)| < |IDs(ordered)| { SubsetCount(IDs(ordered), IDs(facts)); }
    SubsetCount(IDs(ordered), IDs(facts));
    SubsetOfEqualSize(IDs(ordered), IDs(facts));
    forall id ensures Find(ordered, id) == Find(facts, id) {
      assert id in IDs(ordered) <==> id in IDs(facts);
    }
    SortUnique(ordered, facts);
  }

  // --- merging two ordered runs ---

  function Either<V>(a: Option<V>, b: Option<V>): Option<V> {
    if a.Some? then a else b
  }

  ghost predicate Disjoint<V>(left: seq<Row<V>>, right: seq<Row<V>>) {
    forall i, j :: 0 <= i < |left| && 0 <= j < |right| ==> left[i].key != right[j].key
  }

  ghost predicate Merged<V>(left: seq<Row<V>>, right: seq<Row<V>>, l: nat, r: nat, ordered: seq<Row<V>>)
    requires l <= |left| && r <= |right|
  {
    && Sorted(ordered)
    && (l < |left| ==> forall k :: 0 <= k < |ordered| ==> Less(ordered[k].key, left[l].key))
    && (r < |right| ==> forall k :: 0 <= k < |ordered| ==> Less(ordered[k].key, right[r].key))
    && (forall id :: Find(ordered, id) == Either(Find(left[..l], id), Find(right[..r], id)))
  }

  lemma MergeLeft<V>(left: seq<Row<V>>, right: seq<Row<V>>, l: nat, r: nat, ordered: seq<Row<V>>)
    requires Sorted(left) && l < |left| && r <= |right| && Merged(left, right, l, r, ordered)
    requires r < |right| ==> Less(left[l].key, right[r].key)
    ensures Merged(left, right, l + 1, r, ordered + [left[l]])
  {
    hide Less, Find;
    TotalOrder();
    var row := left[l];
    SortedAppend(ordered, row);
    assert left[..l + 1] == left[..l] + [row];
    forall id ensures Find(ordered + [row], id) == Either(Find(left[..l + 1], id), Find(right[..r], id)) {
      FindAppend(ordered, row, id);
      FindAppend(left[..l], row, id);
    }
  }

  lemma MergeSwap<V>(left: seq<Row<V>>, right: seq<Row<V>>, l: nat, r: nat, ordered: seq<Row<V>>)
    requires Disjoint(left, right) && l <= |left| && r <= |right| && Merged(left, right, l, r, ordered)
    ensures Merged(right, left, r, l, ordered)
  {
    hide Less, Find, Sorted;
    forall id ensures Find(left[..l], id).None? || Find(right[..r], id).None? {
      FindAbsent(left[..l], id);
      FindAbsent(right[..r], id);
      if HasKey(left[..l], id) {
        var i :| 0 <= i < |left[..l]| && left[..l][i].key == id;
        forall j | 0 <= j < r ensures right[..r][j].key != id { assert left[i].key != right[j].key; }
      }
    }
  }

  /** The tail that is left over follows everything merged. */
  lemma MergeTail<V>(left: seq<Row<V>>, right: seq<Row<V>>, l: nat, ordered: seq<Row<V>>)
    requires Sorted(left) && l <= |left| && Merged(left, right, l, |right|, ordered)
    ensures Sorted(ordered + left[l..])
    ensures forall id :: Find(ordered + left[l..], id) == Either(Find(left, id), Find(right, id))
    decreases |left| - l
  {
    hide Less, Find, Merged;
    if l == |left| {
      assert ordered + left[l..] == ordered && left[..l] == left && right[..|right|] == right;
      MergedAll(left, right, ordered);
    } else {
      MergedSorted(left, right, l, ordered);
      MergeLeft(left, right, l, |right|, ordered);
      MergeTail(left, right, l + 1, ordered + [left[l]]);
      assert ordered + [left[l]] + left[l + 1..] == ordered + left[l..];
    }
  }

  lemma MergedAll<V>(left: seq<Row<V>>, right: seq<Row<V>>, ordered: seq<Row<V>>)
    requires Merged(left, right, |left|, |right|, ordered)
    ensures Sorted(ordered) && forall id :: Find(ordered, id) == Either(Find(left, id), Find(right, id))
  {
    hide Less, Find;
    assert left[..|left|] == left && right[..|right|] == right;
  }

  lemma MergedSorted<V>(left: seq<Row<V>>, right: seq<Row<V>>, l: nat, ordered: seq<Row<V>>)
    requires l <= |left| && Merged(left, right, l, |right|, ordered)
    ensures Sorted(ordered)
  {
  }

  method MergeRuns(left: seq<Row<SymbolBody>>, right: seq<Row<SymbolBody>>) returns (ordered: seq<Row<SymbolBody>>)
    requires Sorted(left) && Sorted(right) && Disjoint(left, right)
    ensures Sorted(ordered) && forall id :: Find(ordered, id) == Either(Find(left, id), Find(right, id))
  {
    hide *;
    ordered := [];
    var l, r := 0, 0;
    MergeStart(left, right);
    while l < |left| && r < |right|
      invariant l <= |left| && r <= |right| && Merged(left, right, l, r, ordered)
      decreases |left| - l + |right| - r
    {
      if Less(left[l].key, right[r].key) {
        MergeLeft(left, right, l, r, ordered);
        ordered := ordered + [left[l]];
        l := l + 1;
      } else {
        MergeSwap(left, right, l, r, ordered);
        OtherFirst(left, right, l, r);
        MergeLeft(right, left, r, l, ordered);
        ordered := ordered + [right[r]];
        r := r + 1;
        MergeBack(left, right, l, r, ordered);
      }
    }
    if r == |right| {
      MergeTail(left, right, l, ordered);
      assert ordered + left[l..] + right[r..] == ordered + left[l..];
    } else {
      MergeSwap(left, right, l, r, ordered);
      MergeTail(right, left, r, ordered);
      EitherSwap(left, right);
      assert ordered + left[l..] + right[r..] == ordered + right[r..];
    }
    ordered := ordered + left[l..];
    ordered := ordered + right[r..];
  }

  lemma MergeStart(left: seq<Row<SymbolBody>>, right: seq<Row<SymbolBody>>)
    ensures Merged(left, right, 0, 0, [])
  {
  }

  lemma MergeBack(left: seq<Row<SymbolBody>>, right: seq<Row<SymbolBody>>, l: nat, r: nat, ordered: seq<Row<SymbolBody>>)
    requires Disjoint(left, right) && l <= |left| && r <= |right| && Merged(right, left, r, l, ordered)
    ensures Merged(left, right, l, r, ordered)
  {
    hide Merged;
    MergeSwap(right, left, r, l, ordered);
  }

  lemma OtherFirst(left: seq<Row<SymbolBody>>, right: seq<Row<SymbolBody>>, l: nat, r: nat)
    requires Disjoint(left, right) && l < |left| && r < |right| && !Less(left[l].key, right[r].key)
    ensures Less(right[r].key, left[l].key)
  {
    hide Less;
    LessTrichotomy(left[l].key, right[r].key);
  }

  lemma EitherSwap(left: seq<Row<SymbolBody>>, right: seq<Row<SymbolBody>>)
    requires Disjoint(left, right)
    ensures forall id :: Either(Find(left, id), Find(right, id)) == Either(Find(right, id), Find(left, id))
  {
    hide Find;
    forall id ensures Find(left, id).None? || Find(right, id).None? {
      FindAbsent(left, id);
      FindAbsent(right, id);
    }
  }

  // --- the two reuses of the prior order ---

  ghost predicate TakenTo(facts: seq<Row<SymbolBody>>, previous: seq<Row<SymbolBody>>, i: nat, rows: seq<Row<SymbolBody>>)
    requires i <= |previous|
  {
    && Sorted(rows)
    && (i < |previous| ==> forall k :: 0 <= k < |rows| ==> Less(rows[k].key, previous[i].key))
    && (forall id :: Find(rows, id) == if Find(previous[..i], id).Some? then Find(facts, id) else None)
  }

  lemma TakeNext(facts: seq<Row<SymbolBody>>, previous: seq<Row<SymbolBody>>, i: nat, rows: seq<Row<SymbolBody>>)
    requires Sorted(previous) && i < |previous| && TakenTo(facts, previous, i, rows)
    ensures var found := Find(facts, previous[i].key);
      TakenTo(facts, previous, i + 1, if found.Some? then rows + [Row(previous[i].key, found.value)] else rows)
  {
    hide Less, Find;
    TotalOrder();
    var key, found := previous[i].key, Find(facts, previous[i].key);
    assert previous[..i + 1] == previous[..i] + [previous[i]];
    forall id ensures Find(previous[..i + 1], id) == (if id == key then Some(previous[i].value) else Find(previous[..i], id)) {
      FindAppend(previous[..i], previous[i], id);
    }
    BelowAbsent(previous[..i], key);
    if found.Some? {
      var row := Row(key, found.value);
      SortedAppend(rows, row);
      forall id ensures Find(rows + [row], id) == (if id == key then found else Find(rows, id)) { FindAppend(rows, row, id); }
    }
  }

  lemma TakeStart(facts: seq<Row<SymbolBody>>, previous: seq<Row<SymbolBody>>)
    ensures TakenTo(facts, previous, 0, [])
  {
  }

  lemma TakeAll(facts: seq<Row<SymbolBody>>, previous: seq<Row<SymbolBody>>, rows: seq<Row<SymbolBody>>)
    requires TakenTo(facts, previous, |previous|, rows)
    ensures Sorted(rows)
    ensures forall id :: Find(rows, id) == if Find(previous, id).Some? then Find(facts, id) else None
    ensures |rows| == |facts| ==> rows == SortRows(facts)
  {
    hide Less, Find, SortRows;
    assert previous[..|previous|] == previous;
    if |rows| == |facts| { AllTaken(rows, facts); }
  }

  /** The second branch: as many facts as prior rows, and every prior ID still present. */
  method ReuseOrder(facts: seq<Row<SymbolBody>>, index: array<nat>, interner: Interner, previous: seq<Row<SymbolBody>>)
    returns (ordered: seq<Row<SymbolBody>>, complete: bool)
    requires InternerValid(interner) && DistinctKeys(facts) && Indexed(facts, index[..], interner, {})
    requires Sorted(previous) && |previous| == |facts|
    ensures complete ==> ordered == SortRows(facts)
  {
    hide *;
    ordered, complete := [], true;
    TakeStart(facts, previous);
    for i := 0 to |previous|
      invariant complete ==> |ordered| == i && TakenTo(facts, previous, i, ordered)
    {
      var handle := FactFor(facts, index, interner, previous[i].key, {});
      if handle.None? {
        complete := false;
      } else {
        if complete { TakeNext(facts, previous, i, ordered); }
        var fact := facts[index[handle.value] - 1];
        assert fact == Row(fact.key, fact.value);
        ordered := ordered + [fact];
      }
    }
    if complete { TakeAll(facts, previous, ordered); }
  }

  /** The third branch, first half: surviving facts in prior order, their index entries consumed. */
  method TakeRetained(facts: seq<Row<SymbolBody>>, index: array<nat>, interner: Interner, previous: seq<Row<SymbolBody>>)
    returns (retained: seq<Row<SymbolBody>>)
    requires InternerValid(interner) && DistinctKeys(facts) && Indexed(facts, index[..], interner, {})
    requires Sorted(previous)
    modifies index
    ensures TakenTo(facts, previous, |previous|, retained)
    ensures Indexed(facts, index[..], interner, IDs(previous))
  {
    hide *;
    retained := [];
    TakeStart(facts, previous);
    NoIDs(previous);
    for i := 0 to |previous|
      invariant TakenTo(facts, previous, i, retained)
      invariant Indexed(facts, index[..], interner, IDs(previous[..i]))
    {
      var handle := FactFor(facts, index, interner, previous[i].key, IDs(previous[..i]));
      TakeNext(facts, previous, i, retained);
      NewKey(previous, i);
      if handle.Some? {
        ghost var before := index[..];
        var fact := facts[index[handle.value] - 1];
        assert fact == Row(fact.key, fact.value);
        retained := retained + [fact];
        ZeroEntry(facts, before, interner, IDs(previous[..i]), previous[i].key);
        index[handle.value] := 0;
        assert index[..] == before[handle.value := 0];
      } else {
        TakeAbsent(facts, index[..], interner, IDs(previous[..i]), previous[i].key);
      }
    }
    assert previous[..|previous|] == previous;
  }

  lemma NoIDs(rows: seq<Row<SymbolBody>>)
    ensures IDs(rows[..0]) == {}
  {
  }

  lemma NewKey(previous: seq<Row<SymbolBody>>, i: nat)
    requires Sorted(previous) && i < |previous|
    ensures IDs(previous[..i + 1]) == IDs(previous[..i]) + {previous[i].key} && previous[i].key !in IDs(previous[..i])
  {
    hide Less;
    TotalOrder();
    assert previous[..i + 1] == previous[..i] + [previous[i]];
  }

  lemma ZeroEntry(facts: seq<Row<SymbolBody>>, index: seq<nat>, interner: Interner, taken: set<SymbolID>, id: SymbolID)
    requires InternerValid(interner) && DistinctKeys(facts) && Indexed(facts, index, interner, taken)
    requires id in interner && interner[id] < |index|
    ensures Indexed(facts, index[interner[id] := 0], interner, taken + {id})
  {
    var next := index[interner[id] := 0];
    forall h | 0 <= h < |next| && next[h] != 0 ensures Holds(facts, next, interner, h) {
      assert Holds(facts, index, interner, h);
    }
  }

  lemma TakeAbsent(facts: seq<Row<SymbolBody>>, index: seq<nat>, interner: Interner, taken: set<SymbolID>, id: SymbolID)
    requires Indexed(facts, index, interner, taken) && !(Find(facts, id).Some? && id !in taken)
    ensures Indexed(facts, index, interner, taken + {id})
  {
    hide Find;
    FindAbsent(facts, id);
    forall h | 0 <= h < |index| && index[h] != 0 ensures Holds(facts, index, interner, h) {
    }
  }

  /** The third branch, second half: the facts whose entries are still set are the additions. */
  method TakeAdded(facts: seq<Row<SymbolBody>>, index: array<nat>, interner: Interner, ghost taken: set<SymbolID>)
    returns (added: seq<Row<SymbolBody>>)
    requires InternerValid(interner) && DistinctKeys(facts) && Indexed(facts, index[..], interner, taken)
    ensures DistinctKeys(added)
    ensures forall id :: Find(added, id) == if id in taken then None else Find(facts, id)
  {
    hide Less, Find;
    added := [];
    FindEmpty<SymbolBody>();
    for k := 0 to |facts|
      invariant DistinctKeys(added)
      invariant forall i :: 0 <= i < |added| ==> HasKey(facts[..k], added[i].key)
      invariant forall id :: Find(added, id) == if id in taken then None else Find(facts[..k], id)
    {
      hide HasKey, DistinctKeys;
      var fact := facts[k];
      AddedStep(facts, k, added);
      if fact.key in interner && interner[fact.key] < index.Length && index[interner[fact.key]] == k + 1 {
        added := added + [fact];
      }
    }
    assert facts[..|facts|] == facts;
  }

  lemma AddedStep(facts: seq<Row<SymbolBody>>, k: nat, added: seq<Row<SymbolBody>>)
    requires k < |facts| && DistinctKeys(facts) && DistinctKeys(added)
    requires forall i :: 0 <= i < |added| ==> HasKey(facts[..k], added[i].key)
    ensures DistinctKeys(added + [facts[k]])
    ensures forall i :: 0 <= i < |added + [facts[k]]| ==> HasKey(facts[..k + 1], (added + [facts[k]])[i].key)
    ensures forall i :: 0 <= i < |added| ==> HasKey(facts[..k + 1], added[i].key)
    ensures forall id :: Find(added + [facts[k]], id) == if id == facts[k].key then Some(facts[k].value) else Find(added, id)
    ensures forall id :: Find(facts[..k + 1], id) == if id == facts[k].key then Some(facts[k].value) else Find(facts[..k], id)
    ensures Find(facts[..k], facts[k].key) == None
  {
    hide Find;
    var fact := facts[k];
    assert facts[..k + 1] == facts[..k] + [fact];
    FindAbsent(facts[..k], fact.key);
    AppendFact(facts[..k], fact);
    forall i | 0 <= i < |added| ensures HasKey(facts[..k + 1], added[i].key) && added[i].key != fact.key {
      var at :| 0 <= at < |facts[..k]| && facts[..k][at].key == added[i].key;
      assert facts[..k + 1][at].key == added[i].key;
    }
    assert facts[..k + 1][k].key == fact.key;
    assert !HasKey(added, fact.key);
    AppendFact(added, fact);
  }

  /** `orderSymbolFacts`: on every branch, the sort of the facts by ID. */
  method OrderSymbolFacts(facts: seq<Row<SymbolBody>>, index: array<nat>, interner: Interner, previous: Option<Store>)
    returns (ordered: seq<Row<SymbolBody>>)
    requires InternerValid(interner) && DistinctKeys(facts) && Indexed(facts, index[..], interner, {})
    requires previous.Some? ==> StoreValid(previous.value)
    modifies index
    ensures ordered == SortRows(facts)
  {
    hide *;
    if previous.None? || previous.value.length == 0 {
      ordered := SortByID(facts);
      return;
    }
    var rows := StoreRows(previous.value);
    StoreLength(previous.value);
    if previous.value.length == |facts| {
      var reused, complete := ReuseOrder(facts, index, interner, rows);
      if complete { return reused; }
    }
    var retained := TakeRetained(facts, index, interner, rows);
    TakeAll(facts, rows, retained);
    if |retained| == |facts| { return retained; }
    var added := TakeAdded(facts, index, interner, IDs(rows));
    var sorted := SortByID(added);
    MergeReady(facts, rows, retained, added);
    ordered := MergeRuns(retained, sorted);
    SortUnique(ordered, facts);
  }

  lemma StoreLength(store: Store)
    requires StoreValid(store)
    ensures store.length == |StoreRows(store)| && Sorted(StoreRows(store))
  {
  }

  /** The survivors and the sorted additions split the facts. */
  lemma MergeReady(facts: seq<Row<SymbolBody>>, previous: seq<Row<SymbolBody>>, retained: seq<Row<SymbolBody>>, added: seq<Row<SymbolBody>>)
    requires Sorted(retained)
    requires forall id :: Find(retained, id) == if Find(previous, id).Some? then Find(facts, id) else None
    requires forall id :: Find(added, id) == if id in IDs(previous) then None else Find(facts, id)
    ensures Sorted(SortRows(added)) && Disjoint(retained, SortRows(added))
    ensures forall id :: Either(Find(retained, id), Find(SortRows(added), id)) == Find(facts, id)
  {
    hide Find, Less, Sorted;
    SortRowsMeaning(added);
    var sorted := SortRows(added);
    forall id ensures Find(previous, id).Some? <==> id in IDs(previous) { FindInIDs(previous, id); }
    forall i, j | 0 <= i < |retained| && 0 <= j < |sorted| ensures retained[i].key != sorted[j].key {
      FindAt(retained, i);
      FindAt(sorted, j);
    }
  }
}
