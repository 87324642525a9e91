/** Applying symbol operations to the retained symbol index
(crates/typefacts/src/retained_table.rs): validation, then one linear merge or sparse
leaf copies. Both give `ApplyAll` over the viewed rows. */
module SymbolDeltas {
  import opened Order
  import opened SortedRows
  import opened Facts
  import opened KeyedEdits
  import opened PackedIndexes
  import opened RetainedSymbols

  function FoldID(views: seq<Row<SymbolView>>, ops: seq<Row<SymbolEdit>>, i: nat, id: SymbolID): Option<SymbolView>
    requires i <= |ops|
  {
    FoldKey(SymbolStep, Find(views, id), ops[..i], id)
  }

  predicate IsAlias(symbol: Option<SymbolView>) {
    symbol.Some? && symbol.value.aliasTarget != ""
  }

  ghost predicate AcceptedUpTo(views: seq<Row<SymbolView>>, ops: seq<Row<SymbolEdit>>, n: nat)
    requires n <= |ops|
  {
    forall i :: 0 <= i < n ==> StepAccepted(FoldID(views, ops, i, ops[i].key), ops[i].value)
  }

  lemma {:induction false} FoldAbsent(value: Option<SymbolView>, ops: seq<Row<SymbolEdit>>, id: SymbolID)
    requires forall k :: 0 <= k < |ops| ==> ops[k].key != id
    ensures FoldKey(SymbolStep, value, ops, id) == value
  {
    if ops != [] { FoldAbsent(value, ops[..|ops| - 1], id); }
  }

  /** In a grouped list a new ID has no earlier operation. */
  lemma NewID(ops: seq<Row<SymbolEdit>>, i: nat)
    requires GroupedByID(ops) && i < |ops| && (i > 0 ==> ops[i - 1].key != ops[i].key)
    ensures forall k :: 0 <= k < i ==> Less(ops[k].key, ops[i].key)
  {
    hide Less;
    TotalOrder();
    forall k | 0 <= k < i ensures Less(ops[k].key, ops[i].key) {
      assert AtMost(ops[i - 1].key, ops[i].key);
      assert k < i - 1 ==> AtMost(ops[k].key, ops[i - 1].key);
    }
  }

  lemma NewIDFold(views: seq<Row<SymbolView>>, ops: seq<Row<SymbolEdit>>, i: nat)
    requires GroupedByID(ops) && i < |ops| && (i > 0 ==> ops[i - 1].key != ops[i].key)
    ensures FoldID(views, ops, i, ops[i].key) == Find(views, ops[i].key)
  {
    hide Less, Find, FoldKey;
    NewID(ops, i);
    forall k | 0 <= k < |ops[..i]| ensures ops[..i][k].key != ops[i].key {
      LessIrreflexive(ops[i].key);
    }
    FoldAbsent(Find(views, ops[i].key), ops[..i], ops[i].key);
  }

  /** `validate_delta` accepts exactly the lists in which every reference operation meets
  a present symbol that is no alias. Only the current ID's state is tracked. */
  method ValidateDelta(symbols: PackedIndex<StoredSymbol>, ops: seq<Row<SymbolEdit>>) returns (ok: bool)
    requires ValidSymbols(symbols) && GroupedByID(ops)
    requires forall i :: 0 <= i < |ops| ==> ops[i].key != ""
    ensures ok <==> Accepted(Viewed(Rows(symbols)), ops)
  {
    hide *;
    ghost var views := Viewed(Rows(symbols));
    AcceptedParts(views, ops);
    ValidSymbolsParts(symbols);
    var currentID, present, alias := "", false, false;
    for i := 0 to |ops|
      invariant i == 0 ==> currentID == ""
      invariant i > 0 ==> currentID == ops[i - 1].key
      invariant i > 0 ==> present == FoldID(views, ops, i, currentID).Some?
      invariant i > 0 ==> alias == IsAlias(FoldID(views, ops, i, currentID))
      invariant forall k :: 0 <= k < i ==> StepAccepted(FoldID(views, ops, k, ops[k].key), ops[k].value)
    {
      var id := ops[i].key;
      if id != currentID {
        var retained := Get(symbols, id);
        present := retained.Some?;
        alias := retained.Some? && retained.value.aliasTarget != "";
        currentID := id;
        NewIDFold(views, ops, i);
        RetainedState(symbols, id, retained);
      }
      FoldIDNext(views, ops, i);
      StepState(FoldID(views, ops, i, id), ops[i].value);
      match ops[i].value {
        case ReplaceSymbol(body) =>
          present, alias := true, body.aliasTarget != "";
        case RemoveSymbol =>
          present, alias := false, false;
        case ReplacePath(_, _) =>
          if !present || alias { return false; }
      }
    }
    ok := true;
  }

  lemma AcceptedParts(views: seq<Row<SymbolView>>, ops: seq<Row<SymbolEdit>>)
    ensures Accepted(views, ops) <==> AcceptedUpTo(views, ops, |ops|)
    ensures AcceptedUpTo(views, ops, |ops|)
      <==> (forall i :: 0 <= i < |ops| ==> StepAccepted(FoldID(views, ops, i, ops[i].key), ops[i].value))
  {
    hide StepAccepted, FoldKey, Find;
  }

  lemma ValidSymbolsParts(symbols: PackedIndex<StoredSymbol>)
    requires ValidSymbols(symbols)
    ensures Valid(symbols) && Sorted(Rows(symbols)) && AllStored(Rows(symbols))
  {
    hide StoredValid;
  }

  lemma RetainedState(symbols: PackedIndex<StoredSymbol>, id: SymbolID, retained: Option<StoredSymbol>)
    requires retained == Find(Rows(symbols), id)
    ensures var found := Find(Viewed(Rows(symbols)), id);
      found.Some? == retained.Some? && IsAlias(found) == (retained.Some? && retained.value.aliasTarget != "")
  {
    hide Find, Rows, MapRows;
    MapFind(View, Rows(symbols), id);
  }

  lemma FoldIDNext(views: seq<Row<SymbolView>>, ops: seq<Row<SymbolEdit>>, i: nat)
    requires i < |ops|
    ensures FoldID(views, ops, i + 1, ops[i].key) == SymbolStep(FoldID(views, ops, i, ops[i].key), ops[i].value)
  {
    hide FoldKey, Find, SymbolStep;
    FoldNext(SymbolStep, Find(views, ops[i].key), ops, ops[i].key, i);
  }

  /** What the three tracked facts say of one step. */
  lemma StepState(symbol: Option<SymbolView>, edit: SymbolEdit)
    ensures StepAccepted(symbol, edit) <==> (edit.ReplacePath? ==> symbol.Some? && !IsAlias(symbol))
    ensures edit.ReplaceSymbol? ==>
      SymbolStep(symbol, edit).Some? && IsAlias(SymbolStep(symbol, edit)) == (edit.body.aliasTarget != "")
    ensures edit.RemoveSymbol? ==> SymbolStep(symbol, edit).None? && !IsAlias(SymbolStep(symbol, edit))
    ensures edit.ReplacePath? && symbol.Some? ==>
      SymbolStep(symbol, edit).Some? && IsAlias(SymbolStep(symbol, edit)) == IsAlias(symbol)
  {
    hide RunsOf, Change;
  }

  // --- application ---

  ghost predicate EditsValid(ops: seq<Row<SymbolEdit>>) {
    forall i :: 0 <= i < |ops| ==> EditValid(ops[i].value)
  }

  lemma FindStored(rows: seq<Row<StoredSymbol>>, id: SymbolID)
    requires Sorted(rows) && AllStored(rows)
    ensures Find(rows, id).Some? ==> StoredValid(Find(rows, id).value)
  {
    hide StoredValid, Find, Less;
    if Find(rows, id).Some? { var at := FindWitness(rows, id); }
  }

  lemma StoredChange(rows: seq<Row<StoredSymbol>>, id: SymbolID, value: Option<StoredSymbol>)
    requires Sorted(rows) && AllStored(rows) && (value.Some? ==> StoredValid(value.value))
    ensures AllStored(Change(rows, id, value)) && Sorted(Change(rows, id, value))
  {
    hide StoredValid, Find, Less, Change, Sorted;
    ChangeMeaning(rows, id, value);
    var next := Change(rows, id, value);
    forall i | 0 <= i < |next| ensures StoredValid(next[i].value) {
      FindAt(next, i);
      FindStored(rows, next[i].key);
    }
  }

  /** The operation list, seen from the rows after its first `i` operations. */
  lemma StepReady(views: seq<Row<SymbolView>>, rows: seq<Row<StoredSymbol>>, ops: seq<Row<SymbolEdit>>, i: nat)
    requires i < |ops| && Sorted(views) && Sorted(rows) && AllStored(rows) && EditsValid(ops) && Accepted(views, ops)
    requires Viewed(rows) == ApplyAll(SymbolStep, views, ops[..i])
    ensures var existing := Find(rows, ops[i].key);
      && (existing.Some? ==> StoredValid(existing.value))
      && EditValid(ops[i].value)
      && MapOption(View, existing) == FoldID(views, ops, i, ops[i].key)
      && StepAccepted(MapOption(View, existing), ops[i].value)
  {
    hide StoredValid, Find, Sorted, AllStored, ApplyAll, FoldKey, StepAccepted, EditValid, MapRows;
    FindStored(rows, ops[i].key);
    MapFind(View, rows, ops[i].key);
    ApplyAllMeaning(SymbolStep, views, ops[..i]);
  }

  lemma StepDone(views: seq<Row<SymbolView>>, rows: seq<Row<StoredSymbol>>, ops: seq<Row<SymbolEdit>>, i: nat, next: Option<StoredSymbol>)
    requires i < |ops| && Sorted(rows) && AllStored(rows) && (next.Some? ==> StoredValid(next.value))
    requires Viewed(rows) == ApplyAll(SymbolStep, views, ops[..i])
    requires MapOption(View, next) == SymbolStep(MapOption(View, Find(rows, ops[i].key)), ops[i].value)
    ensures Viewed(Change(rows, ops[i].key, next)) == ApplyAll(SymbolStep, views, ops[..i + 1])
    ensures AllStored(Change(rows, ops[i].key, next)) && Sorted(Change(rows, ops[i].key, next))
  {
    hide StoredValid, Find, Sorted, AllStored, ApplyAll, MapRows, SymbolStep, MapOption, Change;
    StoredChange(rows, ops[i].key, next);
    MapFind(View, rows, ops[i].key);
    MapChange(View, rows, ops[i].key, next);
    ApplyNext(SymbolStep, views, ops, i);
  }

  /** Sparse form: one leaf copy per operation. */
  method ApplySymbolOperationsSparse(symbols: PackedIndex<StoredSymbol>, ops: seq<Row<SymbolEdit>>)
    returns (result: PackedIndex<StoredSymbol>)
    requires ValidSymbols(symbols) && EditsValid(ops) && Accepted(Viewed(Rows(symbols)), ops)
    ensures ValidSymbols(result)
    ensures Viewed(Rows(result)) == ApplyAll(SymbolStep, Viewed(Rows(symbols)), ops)
  {
    hide *;
    ghost var views := Viewed(Rows(symbols));
    ValidSymbolsParts(symbols);
    ViewedSorted(Rows(symbols));
    result := symbols;
    NoneApplied(views, ops);
    for i := 0 to |ops|
      invariant Valid(result) && Sorted(Rows(result)) && AllStored(Rows(result))
      invariant Viewed(Rows(result)) == ApplyAll(SymbolStep, views, ops[..i])
    {
      var id := ops[i].key;
      StepReady(views, Rows(result), ops, i);
      var existing := Get(result, id);
      var replacement := ApplyOneSymbol(existing, ops[i].value);
      StepDone(views, Rows(result), ops, i, replacement);
      result := Updated(result, id, replacement);
    }
    assert ops[..|ops|] == ops;
    ValidSymbolsWhole(result);
  }

  lemma ViewedSorted(rows: seq<Row<StoredSymbol>>)
    requires Sorted(rows)
    ensures Sorted(Viewed(rows))
  {
    MapSorted(View, rows);
  }

  lemma NoneApplied(views: seq<Row<SymbolView>>, ops: seq<Row<SymbolEdit>>)
    ensures ApplyAll(SymbolStep, views, ops[..0]) == views
  {
  }

  lemma ValidSymbolsWhole(symbols: PackedIndex<StoredSymbol>)
    requires Valid(symbols) && AllStored(Rows(symbols))
    ensures ValidSymbols(symbols)
  {
    hide StoredValid, Valid, Rows;
  }

  lemma MoveRow(merged: seq<Row<StoredSymbol>>, retained: seq<Row<StoredSymbol>>, id: SymbolID)
    requires retained != [] && Less(retained[0].key, id) && Below(merged, id)
    ensures (merged + [retained[0]]) + retained[1..] == merged + retained
    ensures Below(merged + [retained[0]], id)
  {
    hide Less;
  }

  lemma AtBoundary(merged: seq<Row<StoredSymbol>>, retained: seq<Row<StoredSymbol>>, id: SymbolID)
    requires Sorted(merged + retained) && Below(merged, id)
    requires retained == [] || !Less(retained[0].key, id)
    ensures Boundary(merged, retained, id)
  {
    hide Less, Sorted;
  }

  /** After a group, everything merged lies below the next ID. */
  lemma GroupDone(merged: seq<Row<StoredSymbol>>, id: SymbolID, value: Option<StoredSymbol>, ops: seq<Row<SymbolEdit>>, j: nat)
    requires GroupedByID(ops) && 0 < j <= |ops| && ops[j - 1].key == id && Below(merged, id)
    requires j < |ops| ==> ops[j].key != id
    ensures j < |ops| ==> Below(merged + OneRow(id, value), ops[j].key)
  {
    hide Less;
    TotalOrder();
    if j < |ops| { assert AtMost(ops[j - 1].key, ops[j].key); }
  }

  /** The rows while a group is open: the symbol held aside stands for its row. */
  lemma GroupStart(views: seq<Row<SymbolView>>, rows: seq<Row<StoredSymbol>>, id: SymbolID)
    requires Sorted(rows) && AllStored(rows)
    ensures Change(Viewed(rows), id, MapOption(View, Find(rows, id))) == Viewed(rows)
    ensures Find(rows, id).Some? ==> StoredValid(Find(rows, id).value)
  {
    hide Sorted, AllStored, Find, Change, MapRows, MapOption, StoredValid;
    FindStored(rows, id);
    MapFind(View, rows, id);
    MapSorted(View, rows);
    ChangeSame(Viewed(rows), id);
  }

  lemma GroupReady(views: seq<Row<SymbolView>>, base: seq<Row<SymbolView>>, ops: seq<Row<SymbolEdit>>, j: nat, symbol: Option<StoredSymbol>)
    requires j < |ops| && Sorted(views) && Sorted(base) && EditsValid(ops) && Accepted(views, ops)
    requires ApplyAll(SymbolStep, views, ops[..j]) == Change(base, ops[j].key, MapOption(View, symbol))
    ensures EditValid(ops[j].value) && StepAccepted(MapOption(View, symbol), ops[j].value)
  {
    hide Sorted, Find, ApplyAll, FoldKey, StepAccepted, EditValid, Change, MapOption;
    ApplyAllMeaning(SymbolStep, views, ops[..j]);
    ChangeMeaning(base, ops[j].key, MapOption(View, symbol));
  }

  lemma GroupStep(views: seq<Row<SymbolView>>, base: seq<Row<SymbolView>>, ops: seq<Row<SymbolEdit>>, j: nat,
      symbol: Option<StoredSymbol>, next: Option<StoredSymbol>)
    requires j < |ops| && Sorted(base)
    requires ApplyAll(SymbolStep, views, ops[..j]) == Change(base, ops[j].key, MapOption(View, symbol))
    requires MapOption(View, next) == SymbolStep(MapOption(View, symbol), ops[j].value)
    ensures ApplyAll(SymbolStep, views, ops[..j + 1]) == Change(base, ops[j].key, MapOption(View, next))
  {
    hide Sorted, ApplyAll, Change, MapOption, SymbolStep, Edited;
    ApplyNext(SymbolStep, views, ops, j);
    EditAgain(SymbolStep, base, ops[j].key, MapOption(View, symbol), ops[j]);
  }

  /** Linear form: one merge; all operations of an ID are folded before its row is pushed. */
  method ApplySymbolOperationsLinear(symbols: PackedIndex<StoredSymbol>, ops: seq<Row<SymbolEdit>>)
    returns (result: PackedIndex<StoredSymbol>)
    requires ValidSymbols(symbols) && GroupedByID(ops) && EditsValid(ops) && Accepted(Viewed(Rows(symbols)), ops)
    ensures ValidSymbols(result)
    ensures Viewed(Rows(result)) == ApplyAll(SymbolStep, Viewed(Rows(symbols)), ops)
  {
    hide *;
    ghost var views := Viewed(Rows(symbols));
    ValidSymbolsParts(symbols);
    ViewedSorted(Rows(symbols));
    NoneApplied(views, ops);
    var retained, merged := Rows(symbols), [];
    MergeStart(retained, ops);
    var j := 0;
    while j < |ops|
      invariant j <= |ops|
      invariant Sorted(merged + retained) && AllStored(merged + retained)
      invariant Viewed(merged + retained) == ApplyAll(SymbolStep, views, ops[..j])
      invariant j < |ops| ==> Below(merged, ops[j].key)
    {
      var id := ops[j].key;
      while retained != [] && Less(retained[0].key, id)
        invariant Sorted(merged + retained) && AllStored(merged + retained) && Below(merged, id)
        invariant Viewed(merged + retained) == ApplyAll(SymbolStep, views, ops[..j])
        decreases |retained|
      {
        MoveRow(merged, retained, id);
        merged, retained := merged + [retained[0]], retained[1..];
      }
      AtBoundary(merged, retained, id);
      ghost var rows := merged + retained;
      var symbol := Peeked(retained, id);
      ChangeAtBoundary(merged, retained, id, symbol);
      GroupStart(views, rows, id);
      ViewedSorted(rows);
      ghost var start := j;
      while j < |ops| && ops[j].key == id
        invariant start <= j <= |ops| && (j > start ==> ops[j - 1].key == id) && (j == start ==> ops[start].key == id && start < |ops|)
        invariant symbol.Some? ==> StoredValid(symbol.value)
        invariant ApplyAll(SymbolStep, views, ops[..j]) == Change(Viewed(rows), id, MapOption(View, symbol))
      {
        GroupReady(views, Viewed(rows), ops, j, symbol);
        var next := ApplyOneSymbol(symbol, ops[j].value);
        GroupStep(views, Viewed(rows), ops, j, symbol, next);
        symbol := next;
        j := j + 1;
      }
      ChangeAtBoundary(merged, retained, id, symbol);
      StoredChange(rows, id, symbol);
      ViewedChange(rows, id, symbol);
      GroupDone(merged, id, symbol, ops, j);
      merged, retained := merged + OneRow(id, symbol), Past(retained, id);
    }
    assert ops[..|ops|] == ops;
    result := FromSorted(merged + retained);
    ValidSymbolsWhole(result);
  }

  lemma MergeStart(rows: seq<Row<StoredSymbol>>, ops: seq<Row<SymbolEdit>>)
    ensures [] + rows == rows && (ops != [] ==> Below<StoredSymbol>([], ops[0].key))
  {
  }

  lemma ViewedChange(rows: seq<Row<StoredSymbol>>, id: SymbolID, value: Option<StoredSymbol>)
    requires Sorted(rows)
    ensures Viewed(Change(rows, id, value)) == Change(Viewed(rows), id, MapOption(View, value))
  {
    hide Sorted, Change, MapRows, MapOption;
    MapChange(View, rows, id, value);
  }

  /** The symbol half of a delta: an invalid list is refused and nothing is applied; an
  accepted one gives the same rows in either form. */
  method ApplySymbolDelta(symbols: PackedIndex<StoredSymbol>, ops: seq<Row<SymbolEdit>>)
    returns (result: Option<PackedIndex<StoredSymbol>>)
    requires ValidSymbols(symbols) && GroupedByID(ops) && EditsValid(ops)
    requires forall i :: 0 <= i < |ops| ==> ops[i].key != ""
    ensures result.Some? <==> Accepted(Viewed(Rows(symbols)), ops)
    ensures result.Some? ==>
      ValidSymbols(result.value) && Viewed(Rows(result.value)) == ApplyAll(SymbolStep, Viewed(Rows(symbols)), ops)
  {
    hide *;
    var ok := ValidateDelta(symbols, ops);
    if !ok { return None; }
    var next;
    if |ops| >= LINEAR_REBUILD_MIN_OPERATIONS {
      next := ApplySymbolOperationsLinear(symbols, ops);
    } else {
      next := ApplySymbolOperationsSparse(symbols, ops);
    }
    result := Some(next);
  }
}
