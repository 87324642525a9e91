/** Choosing a delta plan (internal/typefacts/wire_transition_diff.go:79-97): the manifest is
used only when it was recorded against exactly this base table. */
module TransitionDeltas {
  import opened Order
  import opened SortedRows
  import opened Facts
  import opened KeyedEdits
  import opened RetainedPaths
  import opened RetainedSymbols
  import opened SymbolDeltas
  import opened TransitionPaths
  import opened TransitionPlans
  import opened TransitionSymbols
  import opened TransitionReferences
  import opened TransitionFitness

  datatype Manifest = Manifest(exact: bool, baseGeneration: nat, baseStateID: nat, paths: PathManifest, symbols: set<SymbolID>)

  /** `stateID` zero means the table was never published. */
  datatype Table = Table(generation: nat, stateID: nat, rows: Streams, symbols: seq<Chunk>, transport: Option<Manifest>)

  ghost predicate TableFormed(table: Table) {
    Canonical(table.rows) && ChunksFormed(table.symbols) && CanonicalSymbols(ChunkRows(table.symbols))
  }

  predicate UsesManifest(base: Table, target: Table) {
    && target.transport.Some? && target.transport.value.exact && base.stateID != 0
    && target.transport.value.baseGeneration == base.generation && target.transport.value.baseStateID == base.stateID
  }

  ghost predicate ManifestCovers(base: Table, target: Table) {
    target.transport.Some?
    && Covers(base.rows, target.rows, target.transport.value.paths)
    && forall id :: id in target.transport.value.symbols || Find(ChunkRows(base.symbols), id) == Find(ChunkRows(target.symbols), id)
  }

  /** `planDelta`: the plan reproduces the target from the base unless a manifest that was
  used misses something, and its symbol operations always pass the client's validation. */
  method PlanDelta(base: Table, target: Table) returns (pathOps: PathOps, symbolOps: SymbolOps)
    requires TableFormed(base) && TableFormed(target) && Coherent(base.symbols, target.symbols)
    ensures Sorted(pathOps) && GroupedByID(symbolOps) && EditsValid(symbolOps)
    ensures Accepted(MapRows(ViewOf, ChunkRows(base.symbols)), symbolOps)
    ensures StreamsFit(base.rows) && StreamsFit(target.rows) ==> OpsFrom(target.rows, pathOps)
    ensures EditsFromTables(ChunkRows(base.symbols), ChunkRows(target.symbols), symbolOps)
    ensures (ApplyAll(PathStep, Merged(base.rows), pathOps) == Merged(target.rows)
        && ApplyAll(SymbolStep, MapRows(ViewOf, ChunkRows(base.symbols)), symbolOps) == MapRows(ViewOf, ChunkRows(target.symbols)))
      <==> (UsesManifest(base, target) ==> ManifestCovers(base, target))
  {
    hide *;
    Parts(base);
    Parts(target);
    ManifestIs(base, target);
    if target.transport.Some? && target.transport.value.exact && base.stateID != 0
      && target.transport.value.baseGeneration == base.generation && target.transport.value.baseStateID == base.stateID
    {
      var manifest := target.transport.value;
      pathOps := PlanExact(base.rows, target.rows, manifest.paths);
      symbolOps := PlanExactSymbols(ChunkRows(base.symbols), ChunkRows(target.symbols), manifest.symbols);
      ExactLandsIffCovers(base.rows, target.rows, manifest.paths, pathOps);
      if StreamsFit(base.rows) && StreamsFit(target.rows) { ExactFrom(base.rows, target.rows, manifest.paths, pathOps); }
      ExactSymbolsLandIffCovers(ChunkRows(base.symbols), ChunkRows(target.symbols), manifest.symbols, symbolOps);
    } else {
      pathOps := PlanFallback(base.rows, target.rows);
      symbolOps := PlanFallbackSymbols(base.symbols, target.symbols);
      FallbackLands(base.rows, target.rows, pathOps);
      if StreamsFit(base.rows) && StreamsFit(target.rows) { FallbackFrom(base.rows, target.rows, pathOps); }
      FallbackEditsFrom(ChunkRows(base.symbols), ChunkRows(target.symbols), symbolOps);
      FallbackSymbolsLand(ChunkRows(base.symbols), ChunkRows(target.symbols), symbolOps);
      FallbackValid(ChunkRows(base.symbols), ChunkRows(target.symbols), symbolOps);
    }
  }

  lemma Parts(table: Table)
    requires TableFormed(table)
    ensures Canonical(table.rows) && ChunksFormed(table.symbols) && CanonicalSymbols(ChunkRows(table.symbols))
    ensures Sorted(ChunkRows(table.symbols))
  {
    hide Sorted, Canonical, ChunkRows;
  }

  lemma ManifestIs(base: Table, target: Table)
    ensures UsesManifest(base, target) <==> (
      target.transport.Some? && target.transport.value.exact && base.stateID != 0
      && target.transport.value.baseGeneration == base.generation && target.transport.value.baseStateID == base.stateID)
    ensures target.transport.Some? ==> (
      ManifestCovers(base, target) <==> (
        Covers(base.rows, target.rows, target.transport.value.paths)
        && forall id :: id in target.transport.value.symbols || Find(ChunkRows(base.symbols), id) == Find(ChunkRows(target.symbols), id)))
  {
    hide Covers, Find, ChunkRows;
  }

  /** Fallback symbol operations replace and remove only, one operation an ID. */
  lemma FallbackValid(base: seq<Row<SymbolBody>>, target: seq<Row<SymbolBody>>, ops: SymbolOps)
    requires Sorted(ops) && CanonicalSymbols(target)
    requires forall id :: Find(ops, id) == SymbolDiff(Find(base, id), Find(target, id))
    ensures GroupedByID(ops) && EditsValid(ops) && Accepted(MapRows(ViewOf, base), ops)
  {
    hide Less, Find, PathOrdered, ViewOf, FoldKey, MapRows;
    forall k | 0 <= k < |ops| ensures EditValid(ops[k].value) && !ops[k].value.ReplacePath? {
      FindAt(ops, k);
      if Find(target, ops[k].key).Some? { CanonicalFound(target, ops[k].key); }
    }
  }
}
