/** The client's retained fact table: path rows (crates/typefacts/src/retained_table.rs).

Two ways of applying a delta, one linear merge or sparse leaf copies, have one meaning:
`ApplyAll` over the canonical rows. */
module RetainedPaths {
  import opened Order
  import opened SortedRows
  import opened Facts
  import opened PathTable
  import opened KeyedEdits
  import opened PackedIndexes
  import Engine

  function PathStep(rows: Option<PathRows>, op: PathOp): Option<PathRows> {
    ApplyEntry(RowsOrNone(rows), op)
  }

  function Sources(rows: PathRows): nat { if rows.source.Some? then 1 else 0 }

  function Entities(rows: PathRows): nat { |rows.entities| }

  function Files(rows: PathRows): nat { if rows.file.Some? then 1 else 0 }

  datatype Counts = Counts(sources: nat, entities: nat, files: nat)

  function Counted(rows: seq<Row<PathRows>>): Counts {
    Counts(Total(Sources, rows), Total(Entities, rows), Total(Files, rows))
  }

  /** A stored entry always carries some row. */
  ghost predicate NoEmptyRows(rows: seq<Row<PathRows>>) {
    forall i :: 0 <= i < |rows| ==> !rows[i].value.IsEmpty()
  }

  ghost predicate ValidPaths(paths: PackedIndex<PathRows>) {
    Valid(paths) && NoEmptyRows(Rows(paths))
  }

  lemma ValidPathsParts(paths: PackedIndex<PathRows>)
    requires ValidPaths(paths)
    ensures Valid(paths) && Sorted(Rows(paths)) && NoEmptyRows(Rows(paths))
  {
  }

  lemma NoEmptyChange(rows: seq<Row<PathRows>>, key: string, value: Option<PathRows>)
    requires NoEmptyRows(rows) && (value.Some? ==> !value.value.IsEmpty())
    ensures NoEmptyRows(Change(rows, key, value))
  {
    hide LowerIndex;
    var i, next := LowerIndex(rows, key), Change(rows, key, value);
    forall k | 0 <= k < |next| ensures !next[k].value.IsEmpty() {
      if k < i {
        assert next[k] == rows[k];
      } else if value.None? {
        assert next[k] == rows[if HitAt(rows, key, i) then k + 1 else k];
      } else if k > i {
        assert next[k] == rows[if HitAt(rows, key, i) then k else k - 1];
      }
    }
  }

  lemma {:induction false} NoEmptyApplied(rows: seq<Row<PathRows>>, ops: seq<Row<PathOp>>)
    requires NoEmptyRows(rows)
    ensures NoEmptyRows(ApplyAll(PathStep, rows, ops))
  {
    hide NoEmptyRows, Change, Find;
    if ops != [] {
      var last := ops[|ops| - 1];
      var before := ApplyAll(PathStep, rows, ops[..|ops| - 1]);
      NoEmptyApplied(rows, ops[..|ops| - 1]);
      NoEmptyChange(before, last.key, PathStep(Find(before, last.key), last.value));
    }
  }

  /** The three running totals of the sparse form. */
  lemma CountsChange(rows: seq<Row<PathRows>>, key: string, value: Option<PathRows>)
    requires Sorted(rows)
    ensures var prior := Find(rows, key);
      && Weight(Sources, prior) <= Counted(rows).sources
      && Weight(Entities, prior) <= Counted(rows).entities
      && Weight(Files, prior) <= Counted(rows).files
      && Counted(Change(rows, key, value)) == Counts(
        Counted(rows).sources - Weight(Sources, prior) + Weight(Sources, value),
        Counted(rows).entities - Weight(Entities, prior) + Weight(Entities, value),
        Counted(rows).files - Weight(Files, prior) + Weight(Files, value))
  {
    hide Sorted, Find, Change, Total, Weight;
    TotalChange(Sources, rows, key, value);
    TotalChange(Entities, rows, key, value);
    TotalChange(Files, rows, key, value);
  }

  /** Sparse form: one leaf copy per operation, the counts kept by difference. No count
  is ever taken below zero. */
  method ApplyPathOperationsSparse(paths: PackedIndex<PathRows>, counts: Counts, ops: seq<Row<PathOp>>)
    returns (result: PackedIndex<PathRows>, next: Counts)
    requires ValidPaths(paths) && counts == Counted(Rows(paths))
    ensures Valid(result) && Rows(result) == ApplyAll(PathStep, Rows(paths), ops)
    ensures next == Counted(Rows(result))
  {
    hide *;
    ValidPathsParts(paths);
    result, next := paths, counts;
    ApplyNone(Rows(paths), ops);
    for i := 0 to |ops|
      invariant Valid(result) && Rows(result) == ApplyAll(PathStep, Rows(paths), ops[..i])
      invariant next == Counted(Rows(result))
    {
      var path := ops[i].key;
      var existing := Get(result, path);
      var replacement := PathStep(existing, ops[i].value);
      ValidParts(result);
      CountsChange(Rows(result), path, replacement);
      ApplyNext(PathStep, Rows(paths), ops, i);
      EditedIs(PathStep, Rows(result), ops[i]);
      next := Counts(
        next.sources - Weight(Sources, existing) + Weight(Sources, replacement),
        next.entities - Weight(Entities, existing) + Weight(Entities, replacement),
        next.files - Weight(Files, existing) + Weight(Files, replacement));
      result := Updated(result, path, replacement);
    }
    Whole(ops);
  }

  lemma ApplyNone(rows: seq<Row<PathRows>>, ops: seq<Row<PathOp>>)
    ensures ApplyAll(PathStep, rows, ops[..0]) == rows
  {
  }

  lemma EditedIs<V, O>(step: (Option<V>, O) -> Option<V>, rows: seq<Row<V>>, op: Row<O>)
    ensures Edited(step, rows, op) == Change(rows, op.key, step(Find(rows, op.key), op.value))
  {
  }

  lemma Whole<T>(xs: seq<T>)
    ensures xs[..|xs|] == xs
  {
  }

  /** Linear form: one merge of the retained rows with the operations. At every point the
  merged part and the rows still to come are the rows after the operations so far. */
  method ApplyPathOperationsLinear(paths: PackedIndex<PathRows>, ops: seq<Row<PathOp>>) returns (result: PackedIndex<PathRows>)
    requires ValidPaths(paths) && Sorted(ops)
    ensures Valid(result) && Rows(result) == ApplyAll(PathStep, Rows(paths), ops)
  {
    hide *;
    ValidPathsParts(paths);
    ghost var rows := Rows(paths);
    var retained, merged := Rows(paths), [];
    ApplyNone(rows, ops);
    MergeStart(retained, ops);
    for i := 0 to |ops|
      invariant Sorted(merged + retained)
      invariant merged + retained == ApplyAll(PathStep, rows, ops[..i])
      invariant i < |ops| ==> Below(merged, ops[i].key)
    {
      var path := ops[i].key;
      while retained != [] && Less(retained[0].key, path)
        invariant Sorted(merged + retained) && Below(merged, path)
        invariant merged + retained == ApplyAll(PathStep, rows, ops[..i])
        decreases |retained|
      {
        MergeMove(merged, retained, path);
        merged, retained := merged + [retained[0]], retained[1..];
      }
      MergeBoundary(merged, retained, path);
      var replacement := PathStep(Peeked(retained, path), ops[i].value);
      ChangeAtBoundary(merged, retained, path, replacement);
      ChangeMeaning(merged + retained, path, replacement);
      ApplyNext(PathStep, rows, ops, i);
      EditedIs(PathStep, merged + retained, ops[i]);
      MergeNext(merged, path, replacement, ops, i);
      merged, retained := merged + OneRow(path, replacement), Past(retained, path);
    }
    Whole(ops);
    result := FromSorted(merged + retained);
  }

  lemma MergeStart<V, O>(rows: seq<Row<V>>, ops: seq<Row<O>>)
    ensures [] + rows == rows && (ops != [] ==> Below<V>([], ops[0].key))
  {
  }

  lemma MergeMove<V>(merged: seq<Row<V>>, retained: seq<Row<V>>, path: string)
    requires retained != [] && Less(retained[0].key, path) && Below(merged, path)
    ensures (merged + [retained[0]]) + retained[1..] == merged + retained
    ensures Below(merged + [retained[0]], path)
  {
    hide Less;
  }

  lemma MergeBoundary<V>(merged: seq<Row<V>>, retained: seq<Row<V>>, path: string)
    requires Sorted(merged + retained) && Below(merged, path)
    requires retained == [] || !Less(retained[0].key, path)
    ensures Boundary(merged, retained, path)
  {
    hide Less, Sorted;
  }

  lemma MergeNext<V, O>(merged: seq<Row<V>>, path: string, replacement: Option<V>, ops: seq<Row<O>>, i: nat)
    requires i < |ops| && ops[i].key == path && Sorted(ops) && Below(merged, path)
    ensures i + 1 < |ops| ==> Below(merged + OneRow(path, replacement), ops[i + 1].key)
  {
    hide Less;
    TotalOrder();
    if i + 1 < |ops| { assert Less(ops[i].key, ops[i + 1].key); }
  }

  datatype PathTableState = PathTableState(paths: PackedIndex<PathRows>, counts: Counts)

  ghost predicate ValidState(state: PathTableState) {
    ValidPaths(state.paths) && state.counts == Counted(Rows(state.paths))
  }

  /** The path half of `apply_delta`: the operation count picks the form, not the result. */
  method ApplyPathDelta(state: PathTableState, ops: seq<Row<PathOp>>) returns (next: PathTableState)
    requires ValidState(state) && Sorted(ops)
    ensures ValidState(next)
    ensures Rows(next.paths) == ApplyAll(PathStep, Rows(state.paths), ops)
  {
    NoEmptyApplied(Rows(state.paths), ops);
    hide Rows, Valid, Sorted, Counted, ApplyAll, NoEmptyRows;
    if |ops| >= LINEAR_REBUILD_MIN_OPERATIONS {
      var paths := ApplyPathOperationsLinear(state.paths, ops);
      next := PathTableState(paths, CountSlots(Rows(paths)));
    } else {
      var paths, counts := ApplyPathOperationsSparse(state.paths, state.counts, ops);
      next := PathTableState(paths, counts);
    }
  }

  /** The recount of the linear form. */
  function CountSlots(rows: seq<Row<PathRows>>): Counts {
    Counted(rows)
  }

  /** `materialize_full`: the rows of a full transition, its empty entries skipped. */
  method MaterializeFullPaths(ops: seq<Row<PathOp>>) returns (next: PathTableState)
    requires Sorted(ops)
    ensures ValidState(next)
    ensures Rows(next.paths) == ApplyAll(PathStep, [], ops)
  {
    var entries: seq<Row<PathRows>> := [];
    assert Sorted(entries);
    for i := 0 to |ops|
      invariant entries == ApplyAll(PathStep, [], ops[..i])
      invariant Sorted(entries) && NoEmptyRows(entries)
      invariant i < |ops| ==> Below(entries, ops[i].key)
    {
      hide Sorted, ApplyAll, Below, Less, Find, Change, Boundary;
      var replacement := FullEntry(ops[i].value);
      FullStep(entries, ops, i, replacement);
      entries := entries + OneRow(ops[i].key, replacement);
    }
    Whole(ops);
    hide Sorted, ApplyAll, Below, Less, Find, Change;
    var paths := FromSorted(entries);
    next := PathTableState(paths, Counted(entries));
  }

  /** A full transition reads only replacements. */
  function FullEntry(op: PathOp): Option<PathRows> {
    EntryOf(PathRows(
      if op.source.Replace? then Some(op.source.value) else None,
      if op.entities.Replace? then op.entities.value else [],
      if op.file.Replace? then Some(op.file.value) else None))
  }

  lemma FullStep(entries: seq<Row<PathRows>>, ops: seq<Row<PathOp>>, i: nat, replacement: Option<PathRows>)
    requires i < |ops| && Sorted(ops) && Sorted(entries) && NoEmptyRows(entries) && Below(entries, ops[i].key)
    requires entries == ApplyAll(PathStep, [], ops[..i]) && replacement == FullEntry(ops[i].value)
    ensures entries + OneRow(ops[i].key, replacement) == ApplyAll(PathStep, [], ops[..i + 1])
    ensures Sorted(entries + OneRow(ops[i].key, replacement))
    ensures NoEmptyRows(entries + OneRow(ops[i].key, replacement))
    ensures i + 1 < |ops| ==> Below(entries + OneRow(ops[i].key, replacement), ops[i + 1].key)
  {
    hide Sorted, ApplyAll, Below, Less, Find, Change;
    var path := ops[i].key;
    assert entries + [] == entries;
    MergeBoundary(entries, [], path);
    ChangeAtBoundary(entries, [], path, replacement);
    assert entries + OneRow(path, replacement) + Past([], path) == entries + OneRow(path, replacement);
    ChangeMeaning(entries, path, replacement);
    ApplyNext(PathStep, [], ops, i);
    MergeNext(entries, path, replacement, ops, i);
  }

  // --- the session's view of the same step ---

  /** One operation a key: folding a strictly ordered list is one lookup in it. */
  lemma {:induction false} FoldSorted<V, O>(step: (Option<V>, O) -> Option<V>, value: Option<V>, ops: seq<Row<O>>, key: string)
    requires Sorted(ops)
    ensures FoldKey(step, value, ops, key) == (if Find(ops, key).Some? then step(value, Find(ops, key).value) else value)
  {
    hide Less, Find;
    if ops == [] {
      FindEmpty<O>();
    } else {
      var front, last := ops[..|ops| - 1], ops[|ops| - 1];
      FoldSorted(step, value, front, key);
      assert ops == front + [last];
      FindAppend(front, last, key);
      if key == last.key { LastAbsent(ops); }
    }
  }

  lemma LastAbsent<O>(ops: seq<Row<O>>)
    requires ops != [] && Sorted(ops)
    ensures Find(ops[..|ops| - 1], ops[|ops| - 1].key) == None
  {
    hide Less;
    TotalOrder();
    BelowAbsent(ops[..|ops| - 1], ops[|ops| - 1].key);
  }

  /** The packed delta refines the session model's map update: what `EveryRunMirrors`
  says of the client's map holds of the packed rows. */
  lemma PackedDeltaRefinesClientStep(rows: seq<Row<PathRows>>, ops: seq<Row<PathOp>>)
    requires Sorted(rows) && Sorted(ops)
    ensures AsMap(ApplyAll(PathStep, rows, ops)) == Engine.ApplyOps(AsMap(rows), AsMap(ops))
  {
    hide Sorted, ApplyAll, Find, AsMap, FoldKey;
    ApplyAllMeaning(PathStep, rows, ops);
    var left, right := AsMap(ApplyAll(PathStep, rows, ops)), Engine.ApplyOps(AsMap(rows), AsMap(ops));
    forall key ensures (key in left <==> key in right) && (key in left ==> left[key] == right[key]) {
      FoldSorted(PathStep, Find(rows, key), ops, key);
    }
  }
}
