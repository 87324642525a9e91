/** Wholesale and per-symbol replacement of the retained symbols
(crates/typefacts/src/retained_table.rs): each returns exactly the IDs whose fact moved. */
module SymbolPatches {
  import opened Order
  import opened SortedRows
  import opened Facts
  import opened KeyedEdits
  import opened PackedIndexes
  import opened RetainedSymbols
  import opened SymbolDeltas

  /** One merge of two ordered row lists. */
  method RowsDifference<V(==)>(previous: seq<Row<V>>, successor: seq<Row<V>>) returns (changed: seq<string>)
    requires Sorted(previous) && Sorted(successor)
    ensures StrictlyOrdered(changed)
    ensures forall id :: id in changed <==> Find(previous, id) != Find(successor, id)
  {
    hide *;
    changed := [];
    var i, j := 0, 0;
    DifferenceStart(previous, successor);
    while i < |previous| || j < |successor|
      invariant i <= |previous| && j <= |successor|
      invariant MergedTo(previous, successor, i, j)
      invariant Differs(previous[..i], successor[..j], changed)
      invariant (i < |previous| ==> KeysBelow(changed, previous[i].key)) && (j < |successor| ==> KeysBelow(changed, successor[j].key))
      invariant StrictlyOrdered(changed)
      decreases |previous| - i + |successor| - j
    {
      if i < |previous| && j < |successor| && previous[i].key == successor[j].key {
        StepBoth(previous, successor, i, j, changed);
        if previous[i].value != successor[j].value {
          changed := changed + [previous[i].key];
        }
        i, j := i + 1, j + 1;
      } else if i < |previous| && (j == |successor| || Less(previous[i].key, successor[j].key)) {
        StepLeft(previous, successor, i, j, changed);
        changed := changed + [previous[i].key];
        i := i + 1;
      } else {
        StepRight(previous, successor, i, j, changed);
        changed := changed + [successor[j].key];
        j := j + 1;
      }
    }
    assert previous[..i] == previous && successor[..j] == successor;
    DifferenceEnd(previous, successor, changed);
  }

  ghost predicate KeysBelow(keys: seq<string>, key: string) {
    forall k :: 0 <= k < |keys| ==> Less(keys[k], key)
  }

  ghost predicate MergedTo<V>(previous: seq<Row<V>>, successor: seq<Row<V>>, i: nat, j: nat)
    requires i <= |previous| && j <= |successor|
  {
    && Sorted(previous) && Sorted(successor)
    && (i < |previous| ==> forall k :: 0 <= k < j ==> Less(successor[k].key, previous[i].key))
    && (j < |successor| ==> forall k :: 0 <= k < i ==> Less(previous[k].key, successor[j].key))
  }

  ghost predicate Differs<V>(left: seq<Row<V>>, right: seq<Row<V>>, changed: seq<string>) {
    forall id :: id in changed <==> Find(left, id) != Find(right, id)
  }

  lemma DifferenceStart<V>(previous: seq<Row<V>>, successor: seq<Row<V>>)
    requires Sorted(previous) && Sorted(successor)
    ensures MergedTo(previous, successor, 0, 0)
    ensures Differs(previous[..0], successor[..0], []) && StrictlyOrdered([])
    ensures forall key :: KeysBelow([], key)
  {
  }

  lemma DifferenceEnd<V>(left: seq<Row<V>>, right: seq<Row<V>>, changed: seq<string>)
    requires Differs(left, right, changed)
    ensures forall id :: id in changed <==> Find(left, id) != Find(right, id)
  {
  }

  lemma PushKey(changed: seq<string>, key: string, next: string)
    requires StrictlyOrdered(changed) && KeysBelow(changed, key)
    ensures StrictlyOrdered(changed + [key])
    ensures Less(key, next) ==> KeysBelow(changed + [key], next) && KeysBelow(changed, next)
  {
    hide Less;
    TotalOrder();
  }

  /** The rows up to and including `i`, all of whose predecessors are below its key. */
  lemma FindNext<V>(rows: seq<Row<V>>, i: nat, id: string)
    requires Sorted(rows) && i < |rows|
    ensures Find(rows[..i + 1], id) == (if id == rows[i].key then Some(rows[i].value) else Find(rows[..i], id))
    ensures Find(rows[..i], rows[i].key) == None
  {
    hide Less, Find;
    assert rows[..i + 1] == rows[..i] + [rows[i]];
    FindAppend(rows[..i], rows[i], id);
    BelowAbsent(rows[..i], rows[i].key);
  }

  lemma OtherBelow<V>(rows: seq<Row<V>>, n: nat, key: string)
    requires n <= |rows| && (forall k :: 0 <= k < n ==> Less(rows[k].key, key))
    ensures Find(rows[..n], key) == None
  {
    hide Less, Find;
    BelowAbsent(rows[..n], key);
  }

  lemma StepLeft<V>(previous: seq<Row<V>>, successor: seq<Row<V>>, i: nat, j: nat, changed: seq<string>)
    requires i < |previous| && j <= |successor| && MergedTo(previous, successor, i, j)
    requires j < |successor| ==> Less(previous[i].key, successor[j].key)
    requires Differs(previous[..i], successor[..j], changed) && StrictlyOrdered(changed) && KeysBelow(changed, previous[i].key)
    ensures var next := changed + [previous[i].key];
      && MergedTo(previous, successor, i + 1, j) && StrictlyOrdered(next) && Differs(previous[..i + 1], successor[..j], next)
      && (i + 1 < |previous| ==> KeysBelow(next, previous[i + 1].key)) && (j < |successor| ==> KeysBelow(next, successor[j].key))
  {
    hide Less, Find, StrictlyOrdered, KeysBelow;
    TotalOrder();
    var key := previous[i].key;
    if i + 1 < |previous| { PushKey(changed, key, previous[i + 1].key); }
    if j < |successor| { PushKey(changed, key, successor[j].key); }
    PushKey(changed, key, key);
    forall id ensures id in changed + [key] <==> Find(previous[..i + 1], id) != Find(successor[..j], id) {
      FindNext(previous, i, id);
      OtherBelow(successor, j, key);
    }
  }

  lemma StepRight<V>(previous: seq<Row<V>>, successor: seq<Row<V>>, i: nat, j: nat, changed: seq<string>)
    requires i <= |previous| && j < |successor| && MergedTo(previous, successor, i, j)
    requires i < |previous| ==> previous[i].key != successor[j].key && !Less(previous[i].key, successor[j].key)
    requires Differs(previous[..i], successor[..j], changed) && StrictlyOrdered(changed) && KeysBelow(changed, successor[j].key)
    ensures var next := changed + [successor[j].key];
      && MergedTo(previous, successor, i, j + 1) && StrictlyOrdered(next) && Differs(previous[..i], successor[..j + 1], next)
      && (i < |previous| ==> KeysBelow(next, previous[i].key)) && (j + 1 < |successor| ==> KeysBelow(next, successor[j + 1].key))
  {
    hide Less, Find, StrictlyOrdered, KeysBelow;
    TotalOrder();
    var key := successor[j].key;
    if i < |previous| { PushKey(changed, key, previous[i].key); }
    if j + 1 < |successor| { PushKey(changed, key, successor[j + 1].key); }
    PushKey(changed, key, key);
    forall id ensures id in changed + [key] <==> Find(previous[..i], id) != Find(successor[..j + 1], id) {
      FindNext(successor, j, id);
      OtherBelow(previous, i, key);
    }
  }

  lemma StepBoth<V>(previous: seq<Row<V>>, successor: seq<Row<V>>, i: nat, j: nat, changed: seq<string>)
    requires i < |previous| && j < |successor| && MergedTo(previous, successor, i, j) && previous[i].key == successor[j].key
    requires Differs(previous[..i], successor[..j], changed) && StrictlyOrdered(changed) && KeysBelow(changed, previous[i].key)
    ensures var next := if previous[i].value != successor[j].value then changed + [previous[i].key] else changed;
      && MergedTo(previous, successor, i + 1, j + 1) && StrictlyOrdered(next) && Differs(previous[..i + 1], successor[..j + 1], next)
      && (i + 1 < |previous| ==> KeysBelow(next, previous[i + 1].key))
      && (j + 1 < |successor| ==> KeysBelow(next, successor[j + 1].key))
  {
    hide Less, Find, StrictlyOrdered, KeysBelow;
    TotalOrder();
    var key := previous[i].key;
    var next := if previous[i].value != successor[j].value then changed + [key] else changed;
    if i + 1 < |previous| { PushKey(changed, key, previous[i + 1].key); }
    if j + 1 < |successor| { PushKey(changed, key, successor[j + 1].key); }
    PushKey(changed, key, key);
    forall id ensures id in next <==> Find(previous[..i + 1], id) != Find(successor[..j + 1], id) {
      FindNext(successor, j, id);
      FindNext(previous, i, id);
      FindNext(previous, i, key);
    }
  }

  /** The facts as the index stores them. */
  function FactViews(facts: seq<Row<SymbolBody>>): seq<Row<SymbolView>> {
    MapRows(ViewOf, facts)
  }

  ghost predicate FactsValid(facts: seq<Row<SymbolBody>>) {
    forall i :: 0 <= i < |facts| ==> PathOrdered(facts[i].value.references)
  }

  /** `replace_symbols`: the whole table is rebuilt from the facts sorted by ID. */
  method ReplaceSymbols(symbols: PackedIndex<StoredSymbol>, facts: seq<Row<SymbolBody>>)
    returns (next: PackedIndex<StoredSymbol>, changed: seq<SymbolID>)
    requires ValidSymbols(symbols) && Sorted(facts) && FactsValid(facts)
    ensures ValidSymbols(next) && Viewed(Rows(next)) == FactViews(facts)
    ensures StrictlyOrdered(changed)
    ensures forall id :: id in changed <==> Find(Viewed(Rows(symbols)), id) != Find(FactViews(facts), id)
  {
    hide Valid, Rows, Less, StoredValid, ViewOf, PathOrdered, Sorted, Find;
    ValidSymbolsParts(symbols);
    var rows: seq<Row<StoredSymbol>> := [];
    for i := 0 to |facts|
      invariant |rows| == i && AllStored(rows)
      invariant forall k :: 0 <= k < i ==> rows[k].key == facts[k].key && View(rows[k].value) == ViewOf(facts[k].value)
    {
      var stored := FromFact(facts[i].value);
      rows := rows + [Row(facts[i].key, stored)];
    }
    SameKeysSorted(facts, rows);
    assert Viewed(rows) == FactViews(facts);
    ViewedSorted(Rows(symbols));
    ViewedSorted(rows);
    changed := RowsDifference(Viewed(Rows(symbols)), Viewed(rows));
    next := FromSorted(rows);
  }

  lemma SameKeysSorted<V, W>(a: seq<Row<V>>, b: seq<Row<W>>)
    requires Sorted(a) && |a| == |b| && (forall k :: 0 <= k < |a| ==> a[k].key == b[k].key)
    ensures Sorted(b)
  {
    hide Less;
  }

  function PutStep(symbol: Option<SymbolView>, next: SymbolView): Option<SymbolView> {
    Some(next)
  }

  /** `patch_symbols`: each fact replaces its symbol; equal ones are left alone and unreported. */
  method PatchSymbols(symbols: PackedIndex<StoredSymbol>, facts: seq<Row<SymbolBody>>)
    returns (next: PackedIndex<StoredSymbol>, changed: seq<SymbolID>)
    requires ValidSymbols(symbols) && DistinctKeys(facts) && FactsValid(facts)
    ensures ValidSymbols(next)
    ensures Viewed(Rows(next)) == ApplyAll(PutStep, Viewed(Rows(symbols)), FactViews(facts))
    ensures forall id :: id in changed <==> Find(Viewed(Rows(symbols)), id) != Find(Viewed(Rows(next)), id)
  {
    hide *;
    ghost var before := Viewed(Rows(symbols));
    ValidSymbolsParts(symbols);
    PatchStart(before, facts);
    next, changed := symbols, [];
    for i := 0 to |facts|
      invariant Valid(next) && AllStored(Rows(next)) && Sorted(Rows(next))
      invariant Viewed(Rows(next)) == ApplyAll(PutStep, before, FactViews(facts)[..i])
      invariant Differs(before, Viewed(Rows(next)), changed)
      invariant forall k :: i <= k < |facts| ==> Find(Viewed(Rows(next)), facts[k].key) == Find(before, facts[k].key)
    {
      FactAt(facts, i);
      var replacement := FromFact(facts[i].value);
      var id := facts[i].key;
      var existing := Get(next, id);
      MapFind(View, Rows(next), id);
      ViewedRows(Rows(next));
      PatchStep(before, Rows(next), facts, i, replacement, changed);
      if !SameSymbol(existing, replacement) {
        changed := changed + [id];
        next := Updated(next, id, Some(replacement));
      }
      SameSymbolMeaning(existing, replacement);
    }
    assert FactViews(facts)[..|facts|] == FactViews(facts);
    DifferenceEnd(before, Viewed(Rows(next)), changed);
    ValidSymbolsWhole(next);
  }

  /** Row equality looks through the leaves: two indexes with the same runs are equal. */
  predicate SameSymbol(existing: Option<StoredSymbol>, replacement: StoredSymbol) {
    && existing.Some?
    && existing.value.aliasTarget == replacement.aliasTarget
    && existing.value.declarations == replacement.declarations
    && Rows(existing.value.references) == Rows(replacement.references)
  }

  lemma SameSymbolMeaning(existing: Option<StoredSymbol>, replacement: StoredSymbol)
    ensures SameSymbol(existing, replacement) <==> MapOption(View, existing) == Some(View(replacement))
  {
    hide Rows;
  }

  lemma ViewedRows(rows: seq<Row<StoredSymbol>>)
    ensures Viewed(rows) == MapRows(View, rows)
  {
  }

  lemma FactAt(facts: seq<Row<SymbolBody>>, i: nat)
    requires FactsValid(facts) && i < |facts|
    ensures PathOrdered(facts[i].value.references)
  {
  }

  lemma PatchStart(before: seq<Row<SymbolView>>, facts: seq<Row<SymbolBody>>)
    ensures |FactViews(facts)| == |facts| && ApplyAll(PutStep, before, FactViews(facts)[..0]) == before
    ensures Differs(before, before, [])
  {
    hide Find;
  }

  /** One fact, whether or not it equals the stored one. */
  lemma PatchStep(before: seq<Row<SymbolView>>, rows: seq<Row<StoredSymbol>>, facts: seq<Row<SymbolBody>>, i: nat,
      replacement: StoredSymbol, changed: seq<SymbolID>)
    requires i < |facts| && DistinctKeys(facts) && Sorted(rows) && AllStored(rows) && StoredValid(replacement)
    requires View(replacement) == ViewOf(facts[i].value) && |FactViews(facts)| == |facts|
    requires Viewed(rows) == ApplyAll(PutStep, before, FactViews(facts)[..i]) && Differs(before, Viewed(rows), changed)
    requires forall k :: i <= k < |facts| ==> Find(Viewed(rows), facts[k].key) == Find(before, facts[k].key)
    ensures var id := facts[i].key;
      var next := Change(rows, id, Some(replacement));
      && Sorted(next) && AllStored(next)
      && Viewed(next) == ApplyAll(PutStep, before, FactViews(facts)[..i + 1])
      && (forall k :: i + 1 <= k < |facts| ==> Find(Viewed(next), facts[k].key) == Find(before, facts[k].key))
      && (Find(Viewed(rows), id) == Some(View(replacement)) ==> Viewed(next) == Viewed(rows))
      && (Find(Viewed(rows), id) != Some(View(replacement)) ==> Differs(before, Viewed(next), changed + [id]))
  {
    hide Sorted, Less, Find, Change, AllStored, StoredValid, View, ViewOf, ApplyAll, MapRows;
    var id, view := facts[i].key, View(replacement);
    StoredChange(rows, id, Some(replacement));
    ViewedChange(rows, id, Some(replacement));
    ViewedSorted(rows);
    ChangeMeaning(Viewed(rows), id, Some(view));
    ApplyNext(PutStep, before, FactViews(facts), i);
    if Find(Viewed(rows), id) == Some(view) { ChangeSame(Viewed(rows), id); }
  }

  /** `patch_reference_paths`: the references at the affected paths are replaced by the
  reported ones; an absent symbol is left absent. */
  method PatchReferencePaths(symbols: PackedIndex<StoredSymbol>, id: SymbolID, paths: seq<Path>, references: seq<Location>)
    returns (next: PackedIndex<StoredSymbol>, changed: bool)
    requires ValidSymbols(symbols)
    ensures ValidSymbols(next)
    ensures Viewed(Rows(next)) == Change(Viewed(Rows(symbols)), id, PatchedView(Find(Viewed(Rows(symbols)), id), paths, references))
    ensures changed <==> Viewed(Rows(next)) != Viewed(Rows(symbols))
  {
    hide *;
    ValidSymbolsParts(symbols);
    ghost var views := Viewed(Rows(symbols));
    ViewedSorted(Rows(symbols));
    ViewedRows(Rows(symbols));
    MapFind(View, Rows(symbols), id);
    FindStored(Rows(symbols), id);
    ChangeSame(views, id);
    var existing := Get(symbols, id);
    if existing.None? {
      PatchedNone(paths, references);
      return symbols, false;
    }
    var replacement := existing.value;
    PatchedStart(View(replacement), paths, references);
    for i := 0 to |paths|
      invariant StoredValid(replacement)
      invariant Some(View(replacement)) == PatchedView(Some(View(existing.value)), paths[..i], references)
    {
      LocationsAtPath(references, paths[i]);
      PatchedNext(View(existing.value), paths, references, i);
      replacement := ReplaceReferencePath(replacement, paths[i], LocationsAt(references, paths[i]));
    }
    assert paths[..|paths|] == paths;
    SameSymbolMeaning(existing, replacement);
    ViewedChange(Rows(symbols), id, Some(replacement));
    StoredChange(Rows(symbols), id, Some(replacement));
    ChangeSameIff(views, id, Some(View(replacement)));
    Mapped(existing, replacement);
    if SameSymbol(existing, replacement) { return symbols, false; }
    next := Updated(symbols, id, Some(replacement));
    changed := true;
    ValidSymbolsWhole(next);
  }

  lemma Mapped(existing: Option<StoredSymbol>, replacement: StoredSymbol)
    requires existing.Some?
    ensures MapOption(View, existing) == Some(View(existing.value)) && MapOption(View, Some(replacement)) == Some(View(replacement))
  {
  }

  lemma ChangeSameIff(views: seq<Row<SymbolView>>, id: SymbolID, value: Option<SymbolView>)
    requires Sorted(views)
    ensures Change(views, id, value) == views <==> Find(views, id) == value
  {
    hide Sorted, Find, Change;
    ChangeMeaning(views, id, value);
    ChangeSame(views, id);
  }

  /** The symbol with the references at each of the paths replaced, first path to last. */
  function PatchedView(view: Option<SymbolView>, paths: seq<Path>, references: seq<Location>): Option<SymbolView> {
    if view.None? || paths == [] then view
    else
      var before := PatchedView(view, paths[..|paths| - 1], references);
      SymbolStep(before, ReplacePath(paths[|paths| - 1], LocationsAt(references, paths[|paths| - 1])))
  }

  lemma PatchedNone(paths: seq<Path>, references: seq<Location>)
    ensures PatchedView(None, paths, references) == None && MapOption(View, None) == None
  {
  }

  lemma PatchedStart(view: SymbolView, paths: seq<Path>, references: seq<Location>)
    ensures PatchedView(Some(view), paths[..0], references) == Some(view)
  {
  }

  lemma {:induction false} PatchedSome(view: SymbolView, paths: seq<Path>, references: seq<Location>)
    ensures PatchedView(Some(view), paths, references).Some?
  {
    if paths != [] { PatchedSome(view, paths[..|paths| - 1], references); }
  }

  lemma PatchedNext(view: SymbolView, paths: seq<Path>, references: seq<Location>, i: nat)
    requires i < |paths|
    ensures PatchedView(Some(view), paths[..i], references).Some?
    ensures var before, run := PatchedView(Some(view), paths[..i], references).value, RunOrNone(LocationsAt(references, paths[i]));
      PatchedView(Some(view), paths[..i + 1], references) == Some(before.(runs := Change(before.runs, paths[i], run)))
  {
    hide Change, LocationsAt;
    PatchedSome(view, paths[..i], references);
    assert paths[..i + 1][..i] == paths[..i];
  }

  lemma {:induction false} LocationsAtPath(references: seq<Location>, path: Path)
    ensures forall k :: 0 <= k < |LocationsAt(references, path)| ==> LocationsAt(references, path)[k].path == path
  {
    if references != [] { LocationsAtPath(references[..|references| - 1], path); }
  }

  /** When the references at every other path are unchanged, patching the affected paths
  makes the symbol's whole list the reported one. */
  lemma {:induction false} PatchedReferences(view: SymbolView, paths: seq<Path>, references: seq<Location>, other: Path)
    requires RunsValid(view.runs)
    ensures var patched := PatchedView(Some(view), paths, references);
      && patched.Some? && RunsValid(patched.value.runs)
      && patched.value.aliasTarget == view.aliasTarget && patched.value.declarations == view.declarations
      && LocationsAt(FlattenRuns(patched.value.runs), other)
        == (if other in paths then LocationsAt(references, other) else LocationsAt(FlattenRuns(view.runs), other))
  {
    hide RunsValid, LocationsAt, FlattenRuns, Change;
    PatchedSome(view, paths, references);
    if paths != [] {
      var last := paths[|paths| - 1];
      PatchedReferences(view, paths[..|paths| - 1], references, other);
      PatchedSome(view, paths[..|paths| - 1], references);
      var before := PatchedView(Some(view), paths[..|paths| - 1], references).value;
      LocationsAtPath(references, last);
      RunsValidChange(before.runs, last, LocationsAt(references, last));
      ReplacedReferences(before.runs, last, LocationsAt(references, last), other);
      assert paths == paths[..|paths| - 1] + [last];
    }
  }
}
