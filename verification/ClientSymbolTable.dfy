/** `close_symbols` on the client session (crates/typefacts/src/session.rs): the stable
patch when the seeds are unchanged and it applies, else the general path. */
module ClientSymbolTables {
  import opened Order
  import opened SortedRows
  import opened Facts
  import opened KeyedEdits
  import opened PackedIndexes
  import opened RetainedSymbols
  import opened SymbolDeltas
  import opened SymbolPatches
  import opened SymbolPrograms
  import opened ClientClosures
  import opened ClientPatches
  import opened ClientSymbols
  import Stores = SymbolStorePatches

  ghost predicate InvalidatedBy(views: seq<Row<SymbolView>>, affected: set<Path>, id: SymbolID) {
    exists path :: path in affected && DeclaredAt(views, id, path)
  }

  /** Between two generations with the same seeds: facts move only for symbols declared at an
  affected path, and reported lists only at affected paths. */
  ghost predicate OnlyAffectedMoved(before: Program, program: Program, reached: set<SymbolID>, full: set<SymbolID>, views: seq<Row<SymbolView>>,
      affected: set<Path>, reply: Reply, evidence: References) {
    && (forall id :: id in reached && !InvalidatedBy(views, affected, id) ==> SameFact(program, id, FactOf(before, id)))
    && evidence.Keys <= reply.ids
    && (forall id, path :: id in evidence && Eligible(before, reached, full, id) && AliasOf(program, id) == "" && path in affected ==>
          LocationsAt(evidence[id], path) == LocationsAt(FactOf(program, id).references, path))
    && (forall id, path :: id in evidence && Eligible(before, reached, full, id) && AliasOf(program, id) == "" && path !in affected ==>
          LocationsAt(FactOf(before, id).references, path) == LocationsAt(FactOf(program, id).references, path))
  }

  /** The seeds are those of the retained generation. */
  ghost predicate SameSeeds(before: Program, seeds: set<SymbolID>, roots: seq<SymbolID>, reached: set<SymbolID>, full: set<SymbolID>) {
    LeastClosed(before, seeds - {""}, reached) && LeastClosed(before, SetOf(roots) - {""}, full)
  }

  class SymbolTable {
    var symbols: PackedIndex<StoredSymbol>
    var referenceTier: set<SymbolID>
    var symbolsByPath: PathIndex
    var affectedPaths: set<Path>

    constructor ()
      ensures ValidSymbols(symbols) && Viewed(Rows(symbols)) == [] && symbolsByPath == map[] && referenceTier == {} && affectedPaths == {}
    {
      symbols, symbolsByPath, referenceTier, affectedPaths := PackedIndex([], 0), map[], {}, {};
    }

    /** `clear_retained_state`. */
    method Clear()
      modifies this
      ensures ValidSymbols(symbols) && Viewed(Rows(symbols)) == [] && symbolsByPath == map[] && referenceTier == {} && affectedPaths == {}
    {
      symbols, symbolsByPath, referenceTier, affectedPaths := PackedIndex([], 0), map[], {}, {};
    }

    /** `invalidated_symbol_ids`: every symbol declared at an affected path. */
    method InvalidatedIDs() returns (ids: set<SymbolID>)
      requires IndexOK(Viewed(Rows(symbols)), symbolsByPath)
      ensures forall id :: id in ids <==> InvalidatedBy(Viewed(Rows(symbols)), affectedPaths, id)
    {
      hide Viewed, Rows, DeclaredAt;
      ids := {};
      var remaining := affectedPaths;
      while remaining != {}
        invariant remaining <= affectedPaths
        invariant forall id :: id in ids <==>
          exists path :: path in affectedPaths && path !in remaining && DeclaredAt(Viewed(Rows(symbols)), id, path)
        decreases |remaining|
      {
        var path :| path in remaining;
        remaining := remaining - {path};
        var listed := if path in symbolsByPath then symbolsByPath[path] else [];
        forall id ensures id in listed <==> DeclaredAt(Viewed(Rows(symbols)), id, path) {
          assert Listed(symbolsByPath, path, id) <==> DeclaredAt(Viewed(Rows(symbols)), id, path);
        }
        ids := ids + (set id | id in listed);
      }
    }

    /** The general path: the whole closure is answered again and the symbols are replaced. */
    method CloseGeneral(ghost before: Program, program: Program, ghost reached: set<SymbolID>, ghost full: set<SymbolID>,
        seeds: set<SymbolID>, roots: seq<SymbolID>, reply: Reply)
      returns (changed: set<SymbolID>, queried: set<SymbolID>, ghost nextReached: set<SymbolID>, ghost nextFull: set<SymbolID>)
      requires ValidSymbols(symbols) && RepliesOrdered(reply)
      requires TableHolds(before, program, reached, full, Viewed(Rows(symbols)), reply)
      requires forall id :: id in roots && id != "" ==> id in seeds
      modifies this`symbols, this`referenceTier, this`symbolsByPath
      ensures LeastClosed(program, seeds - {""}, nextReached) && LeastClosed(program, SetOf(roots) - {""}, nextFull)
      ensures ValidSymbols(symbols) && IndexOK(Viewed(Rows(symbols)), symbolsByPath)
      ensures forall id :: id in referenceTier <==> Eligible(program, nextReached, nextFull, id)
      ensures ClosedViews(program, nextReached, nextFull, old(Viewed(Rows(symbols))), reply, Viewed(Rows(symbols)))
      ensures forall id :: id in queried <==> Eligible(program, nextReached, nextFull, id) && Queried(old(Viewed(Rows(symbols))), reply, id)
      ensures forall id :: id in changed <==> Find(old(Viewed(Rows(symbols))), id) != Find(Viewed(Rows(symbols)), id)
    {
      hide *;
      ghost var views := Viewed(Rows(symbols));
      ValidSymbolsParts(symbols);
      var facts := Reach(program, seeds);
      nextReached := facts.Keys;
      ReachedParts(program, seeds - {""}, nextReached);
      var tier := FullTier(program, facts, roots);
      nextFull := tier;
      var closed, fullIDs;
      closed, fullIDs, queried := CloseLists(program, facts, tier, symbols, reply);
      var listed := Stores.PatchFacts(closed);
      var ordered := Stores.SortByID(listed);
      SortRowsMeaning(listed);
      ClosedOrdered(before, program, reached, full, views, reply, tier, closed, ordered);
      var next, moved := ReplaceSymbols(symbols, ordered);
      ClosedAre(program, nextReached, tier, views, reply, closed, ordered);
      referenceTier := fullIDs;
      symbols := next;
      ValidSymbolsParts(next);
      symbolsByPath := RebuildIndex(next);
      changed := set id | id in moved;
    }

    /** The patch of a stable universe, with its index. */
    method TryStable(ghost before: Program, program: Program, ghost reached: set<SymbolID>, ghost full: set<SymbolID>,
        reply: Reply, evidence: References)
      returns (patched: bool, changed: set<SymbolID>, queried: set<SymbolID>)
      requires ValidSymbols(symbols) && ListsOrdered(program) && RepliesOrdered(reply) && IndexOK(Viewed(Rows(symbols)), symbolsByPath) && full <= reached
      requires TableHolds(before, program, reached, full, Viewed(Rows(symbols)), reply)
      requires OnlyAffectedMoved(before, program, reached, full, Viewed(Rows(symbols)), affectedPaths, reply, evidence)
      requires forall id :: id in referenceTier <==> Eligible(before, reached, full, id)
      modifies this`symbols, this`symbolsByPath
      ensures !patched ==> symbols == old(symbols) && symbolsByPath == old(symbolsByPath)
      ensures ValidSymbols(symbols) && IndexOK(Viewed(Rows(symbols)), symbolsByPath)
      ensures patched <==> reply.exact && forall id :: InvalidatedBy(old(Viewed(Rows(symbols))), affectedPaths, id) ==> AliasHeld(program, old(Viewed(Rows(symbols))), id)
      ensures patched ==> forall id :: id in queried <==> Unreported(program, referenceTier, reply, evidence, id)
      ensures patched ==> (FreshViews(program, reached, full, Viewed(Rows(symbols)))
        <==> forall id :: id in queried ==> ListOf(reply, id) == FactOf(program, id).references)
      ensures patched ==> forall id :: id in reached ==> AliasOf(program, id) == AliasOf(before, id)
      ensures patched ==> forall id :: id in changed <==> Find(old(Viewed(Rows(symbols))), id) != Find(Viewed(Rows(symbols)), id)
    {
      hide *;
      ghost var views := Viewed(Rows(symbols));
      var invalidated := InvalidatedIDs();
      StableFromMoved(before, program, reached, full, views, affectedPaths, invalidated, reply, evidence);
      var result, moved, read := PatchStable(
        before, program, reached, full, symbols, referenceTier, invalidated, affectedPaths, reply, evidence);
      if result.None? { return false, {}, {}; }
      EdgesSame(before, program, reached, full, views, invalidated, affectedPaths, reply, evidence);
      ValidSymbolsParts(symbols);
      StableKnown(before, program, reached, full, views, invalidated, affectedPaths, reply, evidence);
      var index := Reindex(symbolsByPath, symbols, program, invalidated);
      Reindexed(before, program, reached, full, views, invalidated, affectedPaths, reply, evidence,
        read, Viewed(Rows(result.value)), index);
      StableQueried(before, program, reached, full, referenceTier, reply, evidence, read);
      PatchedFreshIff(program, reached, full, read, reply, Viewed(Rows(result.value)));
      symbols, symbolsByPath := result.value, index;
      patched, changed, queried := true, moved, read;
    }

    /** `close_symbols`. A stable patch leaves the fresh closure of the program exactly when each
    list it reads is answered whole. The general path does exactly when, besides, no symbol that the
    table holds without a list becomes due a non-empty one that the exact delta leaves unnamed. */
    method CloseSymbols(ghost before: Program, program: Program, ghost reached: set<SymbolID>, ghost full: set<SymbolID>,
        seeds: set<SymbolID>, roots: seq<SymbolID>, seedsChanged: bool, reply: Reply, evidence: References)
      returns (patched: bool, changed: set<SymbolID>, queried: set<SymbolID>, ghost nextReached: set<SymbolID>, ghost nextFull: set<SymbolID>)
      requires ValidSymbols(symbols) && ListsOrdered(program) && RepliesOrdered(reply) && IndexOK(Viewed(Rows(symbols)), symbolsByPath)
      requires TableHolds(before, program, reached, full, Viewed(Rows(symbols)), reply)
      requires forall id :: id in referenceTier <==> Eligible(before, reached, full, id)
      requires forall id :: id in roots && id != "" ==> id in seeds
      requires !seedsChanged ==> SameSeeds(before, seeds, roots, reached, full)
      requires !seedsChanged ==> OnlyAffectedMoved(before, program, reached, full, Viewed(Rows(symbols)), affectedPaths, reply, evidence)
      modifies this
      ensures LeastClosed(program, seeds - {""}, nextReached) && LeastClosed(program, SetOf(roots) - {""}, nextFull)
      ensures ValidSymbols(symbols) && IndexOK(Viewed(Rows(symbols)), symbolsByPath)
      ensures forall id :: id in referenceTier <==> Eligible(program, nextReached, nextFull, id)
      ensures forall id :: id in changed <==> Find(old(Viewed(Rows(symbols))), id) != Find(Viewed(Rows(symbols)), id)
      ensures patched ==> !seedsChanged && reply.exact && referenceTier == old(referenceTier) && nextReached == reached && nextFull == full
      ensures affectedPaths == old(affectedPaths)
      ensures patched ==> forall id :: id in queried <==> Unreported(program, old(referenceTier), reply, evidence, id)
      ensures !patched ==> forall id :: id in queried <==> Eligible(program, nextReached, nextFull, id) && Queried(old(Viewed(Rows(symbols))), reply, id)
      ensures FreshViews(program, nextReached, nextFull, Viewed(Rows(symbols)))
        <==> ((forall id :: id in queried ==> ListOf(reply, id) == FactOf(program, id).references)
          && (patched || forall id :: NewlyDue(before, program, reached, full, nextReached, nextFull, reply, id) ==> FactOf(program, id).references == []))
    {
      hide *;
      ghost var views := Viewed(Rows(symbols));
      patched := false;
      if !seedsChanged && symbols.len != 0 {
        TierReached(before, seeds, roots, reached, full);
        var ok, moved, read := TryStable(before, program, reached, full, reply, evidence);
        if ok {
          StableSeeds(before, program, seeds, roots, reached, full);
          SameEligible(before, program, reached, full);
          return true, moved, read, reached, full;
        }
      }
      changed, queried, nextReached, nextFull := CloseGeneral(before, program, reached, full, seeds, roots, reply);
      GeneralPathFreshIff(before, program, reached, full, nextReached, nextFull, views, reply, Viewed(Rows(symbols)));
      AnsweredIs(program, nextReached, nextFull, views, reply, queried);
    }
  }

  lemma AnsweredIs(program: Program, reached: set<SymbolID>, full: set<SymbolID>, views: seq<Row<SymbolView>>, reply: Reply, queried: set<SymbolID>)
    requires forall id :: id in queried <==> Eligible(program, reached, full, id) && Queried(views, reply, id)
    ensures Answered(program, reached, full, views, reply) <==> forall id :: id in queried ==> ListOf(reply, id) == FactOf(program, id).references
  {
    hide Eligible, Queried, ListOf, FactOf;
  }

  lemma ReachedParts(program: Program, seeds: set<SymbolID>, reached: set<SymbolID>)
    requires LeastClosed(program, seeds, reached)
    ensures AliasClosed(program, reached) && seeds <= reached
  {
  }

  lemma TierReached(before: Program, seeds: set<SymbolID>, roots: seq<SymbolID>, reached: set<SymbolID>, full: set<SymbolID>)
    requires SameSeeds(before, seeds, roots, reached, full)
    requires forall id :: id in roots && id != "" ==> id in seeds
    ensures full <= reached
  {
    hide AliasOf;
    assert SetOf(roots) - {""} <= reached;
  }

  lemma StableSeeds(before: Program, program: Program, seeds: set<SymbolID>, roots: seq<SymbolID>, reached: set<SymbolID>, full: set<SymbolID>)
    requires SameSeeds(before, seeds, roots, reached, full) && full <= reached
    requires forall id :: id in reached ==> AliasOf(program, id) == AliasOf(before, id)
    ensures LeastClosed(program, seeds - {""}, reached) && LeastClosed(program, SetOf(roots) - {""}, full)
  {
    hide AliasOf, LeastClosed;
    StableEdges(before, program, seeds - {""}, reached);
    StableEdges(before, program, SetOf(roots) - {""}, full);
  }

  lemma SameEligible(before: Program, program: Program, reached: set<SymbolID>, full: set<SymbolID>)
    requires forall id :: id in reached ==> AliasOf(program, id) == AliasOf(before, id)
    ensures forall id :: Eligible(program, reached, full, id) <==> Eligible(before, reached, full, id)
  {
    hide AliasOf;
  }

  lemma StableQueried(before: Program, program: Program, reached: set<SymbolID>, full: set<SymbolID>, tier: set<SymbolID>, reply: Reply,
      evidence: References, queried: set<SymbolID>)
    requires forall id :: id in tier <==> Eligible(before, reached, full, id)
    requires forall id :: id in reached ==> AliasOf(program, id) == AliasOf(before, id)
    requires forall id :: id in queried <==> Unreported(program, tier, reply, evidence, id)
    ensures forall id :: id in queried ==> Eligible(program, reached, full, id)
  {
    hide AliasOf;
  }

  lemma StableFromMoved(before: Program, program: Program, reached: set<SymbolID>, full: set<SymbolID>, views: seq<Row<SymbolView>>,
      affected: set<Path>, invalidated: set<SymbolID>, reply: Reply, evidence: References)
    requires TableHolds(before, program, reached, full, views, reply) && ListsOrdered(program) && full <= reached
    requires OnlyAffectedMoved(before, program, reached, full, views, affected, reply, evidence)
    requires forall id :: id in invalidated <==> InvalidatedBy(views, affected, id)
    ensures StableTable(before, program, reached, full, views, invalidated, affected, reply, evidence)
  {
    hide Find, Sorted, FactOf, LocationsAt, ListsOrdered, ViewOf, DeclaresIn;
    forall id | id in invalidated ensures id in reached {
      var path :| path in affected && DeclaredAt(views, id, path);
    }
  }

  lemma EdgesSame(before: Program, program: Program, reached: set<SymbolID>, full: set<SymbolID>, views: seq<Row<SymbolView>>,
      invalidated: set<SymbolID>, affected: set<Path>, reply: Reply, evidence: References)
    requires StableTable(before, program, reached, full, views, invalidated, affected, reply, evidence)
    requires forall id :: id in invalidated ==> AliasHeld(program, views, id)
    ensures forall id :: id in reached ==> AliasOf(program, id) == AliasOf(before, id)
  {
    hide *;
    forall id | id in reached ensures AliasOf(program, id) == AliasOf(before, id) {
      AliasSame(before, program, reached, full, views, invalidated, affected, reply, evidence, id);
    }
  }

  // --- the general path's rows ---

  lemma ClosedOrdered(before: Program, program: Program, reached: set<SymbolID>, full: set<SymbolID>, views: seq<Row<SymbolView>>, reply: Reply,
      tier: set<SymbolID>, closed: FactMap, ordered: seq<Row<SymbolBody>>)
    requires TableHolds(before, program, reached, full, views, reply) && RepliesOrdered(reply)
    requires RowsFor(program, tier, views, reply, closed) && Sorted(ordered)
    requires forall id :: Find(ordered, id) == if id in closed then Some(closed[id]) else None
    ensures FactsValid(ordered)
  {
    hide Find, Sorted, FactOf, PathOrdered, ViewOf, Retained, ListOf;
    NothingOrdered();
    forall i | 0 <= i < |ordered| ensures PathOrdered(ordered[i].value.references) {
      FindAt(ordered, i);
      var id := ordered[i].key;
      if Find(views, id).Some? { RetainedFresh(before, reached, full, views, id); }
    }
  }

  lemma ClosedAre(program: Program, reached: set<SymbolID>, tier: set<SymbolID>, views: seq<Row<SymbolView>>, reply: Reply,
      closed: FactMap, ordered: seq<Row<SymbolBody>>)
    requires closed.Keys == reached && RowsFor(program, tier, views, reply, closed) && Sorted(ordered)
    requires forall id :: Find(ordered, id) == if id in closed then Some(closed[id]) else None
    ensures ClosedViews(program, reached, tier, views, reply, FactViews(ordered))
  {
    hide Find, Sorted, RowFor, ViewOf;
    MapSorted(ViewOf, ordered);
    forall id ensures Find(FactViews(ordered), id)
      == if id in reached then Some(ViewOf(RowFor(program, tier, views, reply, id))) else None
    {
      MapFind(ViewOf, ordered, id);
    }
  }

  // --- the index after a stable patch ---

  /** Invalidated symbols leave their old buckets and join the new ones. */
  method Reindex(index: PathIndex, symbols: PackedIndex<StoredSymbol>, program: Program, invalidated: set<SymbolID>) returns (next: PathIndex)
    requires Valid(symbols) && IndexOK(Viewed(Rows(symbols)), index)
    requires forall id :: id in invalidated ==> Find(Viewed(Rows(symbols)), id).Some?
    ensures NoEmptyBucket(next)
    ensures forall path, id :: Listed(next, path, id) <==>
      if id in invalidated then DeclaresIn(FactOf(program, id).declarations, path) else DeclaredAt(Viewed(Rows(symbols)), id, path)
  {
    hide *;
    ghost var views := Viewed(Rows(symbols));
    IndexParts(views, index);
    next := index;
    var remaining := invalidated;
    while remaining != {}
      invariant remaining <= invalidated && NoEmptyBucket(next)
      invariant forall path, id :: Listed(next, path, id) <==> DeclaredAt(views, id, path) && (id in invalidated ==> id in remaining)
      decreases |remaining|
    {
      var id :| id in remaining;
      remaining := remaining - {id};
      FindViewed(symbols, id);
      var stored := Get(symbols, id);
      ghost var before := next;
      next := Unlist(next, id, stored.value.declarations);
      forall path, other ensures Listed(next, path, other) <==> DeclaredAt(views, other, path) && (other in invalidated ==> other in remaining) {
        StillIs(before, id, stored.value.declarations, path, other);
        DeclaredIs(symbols, id, stored.value, path);
      }
    }
    remaining := invalidated;
    ReindexedEnd(program, views, invalidated);
    while remaining != {}
      invariant remaining <= invalidated && NoEmptyBucket(next)
      invariant forall path, id :: Listed(next, path, id) <==> ReindexedAt(program, views, invalidated, remaining, path, id)
      decreases |remaining|
    {
      var id :| id in remaining;
      ghost var prior := remaining;
      remaining := remaining - {id};
      ghost var before := next;
      next := List(next, id, FactOf(program, id).declarations);
      forall path, other ensures Listed(next, path, other) <==> ReindexedAt(program, views, invalidated, remaining, path, other) {
        NowIs(before, id, FactOf(program, id).declarations, path, other);
        ReindexedStep(program, views, invalidated, prior, id, path, other);
      }
    }
    ReindexedEnd(program, views, invalidated);
  }

  ghost predicate ReindexedAt(program: Program, views: seq<Row<SymbolView>>, invalidated: set<SymbolID>, remaining: set<SymbolID>, path: Path, id: SymbolID) {
    if id in invalidated then id !in remaining && DeclaresIn(FactOf(program, id).declarations, path) else DeclaredAt(views, id, path)
  }

  lemma ReindexedStep(program: Program, views: seq<Row<SymbolView>>, invalidated: set<SymbolID>, prior: set<SymbolID>, id: SymbolID, path: Path, other: SymbolID)
    requires id in prior && prior <= invalidated
    ensures ReindexedAt(program, views, invalidated, prior - {id}, path, other) <==>
      ReindexedAt(program, views, invalidated, prior, path, other) || (other == id && DeclaresIn(FactOf(program, id).declarations, path))
  {
    hide DeclaresIn, DeclaredAt, FactOf;
  }

  lemma ReindexedEnd(program: Program, views: seq<Row<SymbolView>>, invalidated: set<SymbolID>)
    ensures forall path, id :: ReindexedAt(program, views, invalidated, {}, path, id) <==>
      if id in invalidated then DeclaresIn(FactOf(program, id).declarations, path) else DeclaredAt(views, id, path)
    ensures forall path, id :: ReindexedAt(program, views, invalidated, invalidated, path, id) <==> id !in invalidated && DeclaredAt(views, id, path)
  {
    hide DeclaresIn, DeclaredAt, FactOf;
  }

  lemma IndexParts(views: seq<Row<SymbolView>>, index: PathIndex)
    requires IndexOK(views, index)
    ensures NoEmptyBucket(index)
    ensures forall path, id :: Listed(index, path, id) <==> DeclaredAt(views, id, path)
  {
    hide DeclaredAt, Listed;
  }

  lemma StillIs(index: PathIndex, id: SymbolID, declarations: seq<Declaration>, path: Path, other: SymbolID)
    ensures StillListed(index, id, declarations, path, other) <==> Listed(index, path, other) && !(other == id && DeclaresIn(declarations, path))
  {
  }

  lemma NowIs(index: PathIndex, id: SymbolID, declarations: seq<Declaration>, path: Path, other: SymbolID)
    ensures NowListed(index, id, declarations, path, other) <==> Listed(index, path, other) || (other == id && DeclaresIn(declarations, path))
  {
  }

  lemma DeclaredIs(symbols: PackedIndex<StoredSymbol>, id: SymbolID, stored: StoredSymbol, path: Path)
    requires Find(Rows(symbols), id) == Some(stored)
    ensures DeclaredAt(Viewed(Rows(symbols)), id, path) <==> DeclaresIn(stored.declarations, path)
  {
    hide Rows, Find, MapRows, DeclaresIn;
    FindViewed(symbols, id);
  }

  /** The patched table's own declarations are what the buckets now list. */
  lemma Reindexed(before: Program, program: Program, reached: set<SymbolID>, full: set<SymbolID>, views: seq<Row<SymbolView>>,
      invalidated: set<SymbolID>, affected: set<Path>, reply: Reply, evidence: References, refresh: set<SymbolID>, next: seq<Row<SymbolView>>, index: PathIndex)
    requires StableTable(before, program, reached, full, views, invalidated, affected, reply, evidence)
    requires PatchedViews(program, reached, full, refresh, reply, next) && NoEmptyBucket(index)
    requires forall path, id :: Listed(index, path, id) <==>
      if id in invalidated then DeclaresIn(FactOf(program, id).declarations, path) else DeclaredAt(views, id, path)
    ensures IndexOK(next, index)
  {
    hide Find, Sorted, LocationsAt, ListsOrdered, RunsOf, DeclaresIn, FactOf, Listed, PatchedViews;
    forall path, id ensures Listed(index, path, id) <==> DeclaredAt(next, id, path) {
      PatchedFacts(program, reached, full, refresh, reply, next, id);
      assert Find(views, id) == if id in reached then Some(ViewOf(Fresh(before, full, id))) else None;
      assert id in reached && id !in invalidated ==> SameFact(program, id, FactOf(before, id));
    }
  }
}
