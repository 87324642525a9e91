/** Every planned operation passes the decoder's checks (internal/typefacts/wire_transition_diff.go
against crates/typefacts/src/v3.rs:1313-1467), given tables whose rows do. */
module TransitionFitness {
  import opened Order
  import opened SortedRows
  import opened Facts
  import opened PathTable
  import opened PackedTokens
  import opened PackedLocations
  import opened PackedEntities
  import opened PackedPathOps
  import opened PackedSymbolOps
  import opened RetainedPaths
  import opened RetainedSymbols
  import opened SymbolDeltas
  import opened TransitionPaths
  import opened TransitionPlans
  import opened TransitionSymbols
  import opened TransitionReferences

  // --- paths ---

  /** The rows at one path are within what the wire represents. */
  ghost predicate RowsFit(path: Path, rows: PathRows) {
    && (!rows.IsEmpty() ==> path != "")
    && (rows.source.Some? ==> |rows.source.value| == DIGEST_LENGTH)
    && (rows.entities != [] ==> EntitiesFit(path, rows.entities))
    && (rows.file.Some? ==> rows.file.value.path == path && AllAsyncPlaced(rows.file.value.asyncFunctions))
  }

  ghost predicate StreamsFit(table: Streams) {
    forall path :: RowsFit(path, RowsOf(table, path))
  }

  /** The operation replaces with the target's rows only, and does something. */
  predicate OpFrom(after: PathRows, op: PathOp) {
    && op != NoOp
    && (op.source.Replace? ==> after.source == Some(op.source.value))
    && (op.entities.Replace? ==> after.entities == op.entities.value && after.entities != [])
    && (op.file.Replace? ==> after.file == Some(op.file.value))
  }

  ghost predicate OpsFrom(target: Streams, ops: PathOps) {
    forall k :: 0 <= k < |ops| ==> ops[k].key != "" && OpFrom(RowsOf(target, ops[k].key), ops[k].value)
  }

  ghost predicate ReplacesOnly(ops: PathOps) {
    forall k :: 0 <= k < |ops| ==> var op := ops[k].value; !op.source.Remove? && !op.entities.Remove? && !op.file.Remove?
  }

  lemma PathOpsPass(mode: Mode, target: Streams, ops: PathOps)
    requires StreamsFit(target) && Sorted(ops) && OpsFrom(target, ops) && |ops| <= PACKED_COLLECTION_LIMIT
    requires mode == Full ==> ReplacesOnly(ops)
    ensures PathOpsFit(mode, ops)
  {
    hide RowsOf, EntitiesFit, AllAsyncPlaced, Sorted;
    forall k | 0 <= k < |ops| ensures PathOpFits(ops[k]) && SlotsFit(mode, ops[k].value) {
      assert RowsFit(ops[k].key, RowsOf(target, ops[k].key));
    }
  }

  lemma FitRows(table: Streams, path: Path)
    requires StreamsFit(table) && path == ""
    ensures RowsOf(table, path) == NoRows
  {
    hide RowsOf, EntitiesFit, AllAsyncPlaced;
    assert RowsFit(path, RowsOf(table, path));
  }

  /** The sparse plan, over named paths. */
  lemma SparseFrom(target: Streams, manifest: PathManifest, ops: PathOps)
    requires Sorted(ops) && "" !in Candidates(manifest)
    requires forall path :: Find(ops, path) == SparseAt(target, manifest, path)
    ensures OpsFrom(target, ops)
  {
    hide Less, Find, RowsOf;
    forall k | 0 <= k < |ops| ensures ops[k].key != "" && OpFrom(RowsOf(target, ops[k].key), ops[k].value) {
      FindAt(ops, k);
      assert SparseAt(target, manifest, ops[k].key) == Some(ops[k].value);
    }
  }

  lemma DifferenceFrom(before: PathRows, after: PathRows, source: bool, entity: bool, file: bool)
    ensures var op := RowsDifference(before, after, source, entity, file);
      op != NoOp ==> OpFrom(after, op) && (before != NoRows || after != NoRows)
    ensures before == NoRows ==>
      var op := RowsDifference(before, after, source, entity, file); !op.source.Remove? && !op.entities.Remove? && !op.file.Remove?
  {
  }

  /** The exact plan. */
  lemma ExactFrom(base: Streams, target: Streams, manifest: PathManifest, ops: PathOps)
    requires StreamsFit(base) && StreamsFit(target) && Sorted(ops)
    requires forall path :: Find(ops, path) == ExactAt(base, target, manifest, path)
    ensures OpsFrom(target, ops)
  {
    hide Less, Find, RowsOf, RowsDifference, StreamsFit, OpFrom;
    forall k | 0 <= k < |ops| ensures ops[k].key != "" && OpFrom(RowsOf(target, ops[k].key), ops[k].value) {
      var path := ops[k].key;
      FindAt(ops, k);
      assert ExactAt(base, target, manifest, path) == Some(ops[k].value);
      DifferenceFrom(RowsOf(base, path), RowsOf(target, path), path in manifest.sources, path in manifest.entities, path in manifest.files);
      if path == "" {
        FitRows(base, path);
        FitRows(target, path);
      }
    }
  }

  /** The fallback plan. */
  lemma FallbackFrom(base: Streams, target: Streams, ops: PathOps)
    requires Canonical(base) && Canonical(target) && StreamsFit(base) && StreamsFit(target) && Sorted(ops)
    requires forall path :: Find(ops, path) == DiffAt(Merged(base), Merged(target), path)
    ensures OpsFrom(target, ops)
  {
    hide *;
    MergedMeaning(base);
    MergedMeaning(target);
    forall k | 0 <= k < |ops| ensures ops[k].key != "" && OpFrom(RowsOf(target, ops[k].key), ops[k].value) {
      var path := ops[k].key;
      FindAt(ops, k);
      assert DiffAt(Merged(base), Merged(target), path) == Some(ops[k].value);
      DiffIs(Merged(base), Merged(target), RowsOf(base, path), RowsOf(target, path), path);
      SomeOp(DiffAt(Merged(base), Merged(target), path));
      DiffIsOp(Merged(base), Merged(target), path);
      DifferenceFrom(RowsOf(base, path), RowsOf(target, path), true, true, true);
      if path == "" {
        FitRows(base, path);
        FitRows(target, path);
      }
    }
    OpsFromIs(target, ops);
  }

  lemma OpsFromIs(target: Streams, ops: PathOps)
    requires forall k :: 0 <= k < |ops| ==> ops[k].key != "" && OpFrom(RowsOf(target, ops[k].key), ops[k].value)
    ensures OpsFrom(target, ops)
  {
    hide RowsOf, OpFrom;
  }

  lemma SomeOp(op: Option<PathOp>)
    requires op.Some?
    ensures OpOr(op) == op.value
  {
  }

  lemma DiffIsOp(previous: seq<Row<PathRows>>, next: seq<Row<PathRows>>, path: Path)
    ensures DiffAt(previous, next, path) != Some(NoOp)
  {
    hide Find, RowsDifference;
  }

  /** The full plan only replaces. */
  lemma FullFrom(target: Streams, ops: PathOps)
    requires Canonical(target) && StreamsFit(target) && Sorted(ops)
    requires forall path :: Find(ops, path) == DiffAt([], Merged(target), path)
    ensures OpsFrom(target, ops) && ReplacesOnly(ops)
  {
    var none := Streams([], [], []);
    assert Canonical(none) && Merged(none) == [];
    NothingFits(none);
    FallbackFrom(none, target, ops);
    hide Less, Find, Merged, RowsDifference, OpsFrom, Canonical, StreamsFit;
    forall k | 0 <= k < |ops|
      ensures var op := ops[k].value; !op.source.Remove? && !op.entities.Remove? && !op.file.Remove?
    {
      FindAt(ops, k);
      FindEmpty<PathRows>();
      var path := ops[k].key;
      assert DiffAt([], Merged(target), path) == Some(ops[k].value);
      DifferenceFrom(NoRows, RowsOrNone(Find(Merged(target), path)), true, true, true);
    }
  }

  lemma NothingFits(none: Streams)
    requires none == Streams([], [], [])
    ensures StreamsFit(none)
  {
    FindEmpty<Digest>();
    FindEmpty<seq<EntityFact>>();
    FindEmpty<FileFact>();
    hide Find, EntitiesFit, AllAsyncPlaced;
  }

  // --- symbols ---

  ghost predicate SymbolFits(id: SymbolID, body: SymbolBody) {
    id != "" && BodyFits(body) && forall k :: 0 <= k < |body.references| ==> body.references[k].path != ""
  }

  ghost predicate SymbolsFit(rows: seq<Row<SymbolBody>>) {
    forall id :: Find(rows, id).Some? ==> SymbolFits(id, Find(rows, id).value)
  }

  ghost predicate Ascending(references: seq<Location>) {
    forall i, j :: 0 <= i < j < |references| ==> LocationAtMost(references[i], references[j])
  }

  lemma LocationChain(a: Location, b: Location, c: Location)
    requires LocationAtMost(a, b) && LocationAtMost(b, c)
    ensures LocationAtMost(a, c)
  {
    hide Less;
    TotalOrder();
  }

  lemma {:induction false} CanonicalAscends(references: seq<Location>)
    requires LocationsCanonical(references)
    ensures Ascending(references)
    decreases |references|
  {
    hide LocationAtMost;
    if references != [] {
      var n := |references| - 1;
      CanonicalAscends(references[..n]);
      forall i, j | 0 <= i < j < |references| ensures LocationAtMost(references[i], references[j]) {
        if j == n && i < n - 1 {
          assert LocationAtMost(references[..n][i], references[..n][n - 1]);
          LocationChain(references[i], references[n - 1], references[n]);
        } else if j < n {
          assert LocationAtMost(references[..n][i], references[..n][j]);
        }
      }
    }
  }

  /** A filtered run is drawn from the references, in their order. */
  lemma {:induction false} FilterKeeps(references: seq<Location>, path: Path)
    requires Ascending(references)
    ensures |LocationsAt(references, path)| <= |references| && Ascending(LocationsAt(references, path))
    ensures forall k :: 0 <= k < |LocationsAt(references, path)| ==> LocationsAt(references, path)[k] in references && LocationsAt(references, path)[k].path == path
  {
    hide LocationAtMost;
    if references != [] {
      var front, last := references[..|references| - 1], references[|references| - 1];
      FilterKeeps(front, path);
      var run := LocationsAt(front, path);
      forall k | 0 <= k < |run| ensures LocationAtMost(run[k], last) {
        assert run[k] in front;
        var i :| 0 <= i < |front| && front[i] == run[k];
        assert LocationAtMost(references[i], references[|references| - 1]);
      }
    }
  }

  lemma RunPasses(body: SymbolBody, path: Path)
    requires BodyFits(body)
    ensures var run := LocationsAt(body.references, path); AllPlaced(run) && AllAt(path, run) && LocationsCanonical(run)
  {
    hide LocationAtMost, DeclarationsPlaced;
    CanonicalAscends(body.references);
    FilterKeeps(body.references, path);
    hide LocationsAt;
  }

  lemma RunPath(id: SymbolID, body: SymbolBody, path: Path)
    requires SymbolFits(id, body) && LocationsAt(body.references, path) != []
    ensures path != ""
  {
    hide LocationAtMost, DeclarationsPlaced;
    CanonicalAscends(body.references);
    FilterKeeps(body.references, path);
    var first := LocationsAt(body.references, path)[0];
    assert first in body.references && first.path == path;
  }

  lemma EditPasses(id: SymbolID, previous: Option<SymbolBody>, next: Option<SymbolBody>, edit: SymbolEdit)
    requires EditFrom(previous, next, edit)
    requires (previous.Some? ==> SymbolFits(id, previous.value)) && (next.Some? ==> SymbolFits(id, next.value))
    ensures id != "" && EditFits(Delta, edit)
  {
    match edit {
      case ReplaceSymbol(body) =>
      case RemoveSymbol =>
      case ReplacePath(path, references) =>
        RunPasses(next.value, path);
        if references != [] { RunPath(id, next.value, path); } else { RunPath(id, previous.value, path); }
    }
    hide BodyFits, AllPlaced, AllAt, LocationsCanonical, LocationsAt;
  }

  lemma BeforeIsLess(a: Row<SymbolEdit>, b: Row<SymbolEdit>)
    requires EditBefore(a, b)
    ensures OpLess(a, b)
  {
    hide Less;
  }

  lemma SymbolOpsPass(base: seq<Row<SymbolBody>>, target: seq<Row<SymbolBody>>, ops: SymbolOps)
    requires SymbolsFit(base) && SymbolsFit(target) && EditsFromTables(base, target, ops) && |ops| <= PACKED_COLLECTION_LIMIT
    ensures SymbolOpsFit(Delta, ops)
  {
    hide Find, SymbolFits, EditFrom, EditFits, EditBefore, OpLess;
    forall k | 0 <= k < |ops| ensures ops[k].key != "" && EditFits(Delta, ops[k].value) {
      EditPasses(ops[k].key, Find(base, ops[k].key), Find(target, ops[k].key), ops[k].value);
    }
    forall k | 0 < k < |ops| ensures OpLess(ops[k - 1], ops[k]) {
      BeforeIsLess(ops[k - 1], ops[k]);
    }
  }

  /** The fallback symbol plan: at most one operation a symbol. */
  lemma FallbackEditsFrom(base: seq<Row<SymbolBody>>, target: seq<Row<SymbolBody>>, ops: SymbolOps)
    requires Sorted(ops) && forall id :: Find(ops, id) == SymbolDiff(Find(base, id), Find(target, id))
    ensures EditsFromTables(base, target, ops)
  {
    hide Less, Find, LocationsAt;
    forall k | 0 <= k < |ops| ensures EditFrom(Find(base, ops[k].key), Find(target, ops[k].key), ops[k].value) {
      FindAt(ops, k);
    }
    forall k | 0 < k < |ops| ensures EditBefore(ops[k - 1], ops[k]) {
      assert Less(ops[k - 1].key, ops[k].key);
    }
  }
}
