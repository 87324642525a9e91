/** Inputs on which the reference index loses rows (internal/typefacts/tsgo/references.go:42-103, 302-383),
followed through its steps. */
module ReferenceLosses {
  import opened Order
  import opened SortedRows
  import opened Facts
  import opened ReferenceRows
  import opened ReferenceStates
  import opened ReferenceInvalidations
  import opened ReferenceReleases
  import opened ReferenceIndexes

  /** One build, one invalidation of many files that retains a durable file, one rebuild: every symbol
  that file mentions has lost rows, in every program. */
  method BroadRebuildLosesRows(program: Scans, path: Path, id: SymbolID) returns (rows: seq<IndexedReference>, paths: seq<Path>)
    requires ScansFormed(program) && path in program && program[path].durable && id in program[path].refs
    ensures StrictlyOrdered(paths) && SetOf(paths) == program.Keys
    ensures rows != FreshRows(paths, program, id)
  {
    hide ScansFormed, FreshRows, Formed, RebuiltOver, Settled, StrictlyOrdered, SetOf;
    var index := new ReferenceIndex(program);
    index.Ensure(program);
    SettledFiles(index.State(), path);
    StableSelf(program, {path});
    index.Invalidate(program, INCREMENTAL_LIMIT + 1, {path});
    var kept := index.files;
    index.Ensure(program);
    SettledPaths(index.State());
    rows, paths := RowsFor(index.merged.value, id), index.paths;
    RebuiltIsFreshIff(index.State(), kept, id);
    KeptMentions(index.State(), kept, path, id);
  }

  lemma SettledFiles(s: IndexState, path: Path)
    requires Formed(s) && Settled(s) && path in s.truth
    ensures path in s.files && s.files[path].durable == s.truth[path].durable
  {
    hide DeltaFormed, RowsFormed, Emptied;
  }

  lemma StableSelf(program: Scans, retained: set<Path>)
    requires ScansFormed(program)
    ensures Stable(program, program, retained)
  {
    hide ScansFormed;
  }

  lemma KeptMentions(s: IndexState, kept: Scans, path: Path, id: SymbolID)
    requires RebuiltOver(s, kept) && path in kept && id in s.truth[path].refs
    ensures id in kept[path].refs
  {
  }

  /** One build and one release: every symbol that some file mentions and no fact used is answered with no rows,
  in every program, although nothing changed. */
  method ReleaseLosesRows(program: Scans, path: Path, id: SymbolID) returns (rows: seq<IndexedReference>, paths: seq<Path>)
    requires ScansFormed(program) && path in program && id in program[path].refs
    ensures StrictlyOrdered(paths) && SetOf(paths) == program.Keys
    ensures rows == [] && FreshRows(paths, program, id) != []
  {
    hide ScansFormed, FreshRows, Formed, StrictlyOrdered, SetOf, EnsuredHeld, Gather, Columns, HeldAll;
    var index := new ReferenceIndex(program);
    index.Ensure(program);
    index.ReleaseAnalysisState();
    ghost var held := index.past.held;
    SettledHeld(index.State());
    rows := index.References(program, id);
    paths := index.paths;
    ReleasedNothing(held, paths, id);
    Nonempty(program, path, id);
    NotHeld(held, path, id);
    MissingAt(held, program, path, id);
  }

  lemma ReleasedNothing(held: map<Path, Refs>, paths: seq<Path>, id: SymbolID)
    requires forall path :: path in held ==> id !in held[path]
    ensures Gather(Columns(paths, held, id)) == []
  {
    GatherNothing(Columns(paths, held, id));
  }

  lemma NotHeld(held: map<Path, Refs>, path: Path, id: SymbolID)
    requires path in held ==> id !in held[path]
    ensures HeldAt(held, path, id) == []
  {
  }

  /** After a release, an edit that rescans one file answers with that file's spans only: a symbol that two
  files mention, used in no fact since the build, is short of the other file's. */
  method RescanIsPartial(program: Scans, edited: Path, other: Path, id: SymbolID) returns (rows: seq<IndexedReference>, paths: seq<Path>)
    requires ScansFormed(program) && edited in program && other in program && edited != other
    requires program[other].durable && id in program[edited].refs && id in program[other].refs
    requires forall path :: path in program ==> program[path].durable
    ensures StrictlyOrdered(paths) && SetOf(paths) == program.Keys
    ensures rows != [] && rows != FreshRows(paths, program, id)
  {
    hide ScansFormed, FreshRows, Formed, StrictlyOrdered, SetOf, EnsuredHeld, Gather, Columns, HeldAll, Stable, KeptFiles;
    var index := new ReferenceIndex(program);
    index.Ensure(program);
    index.ReleaseAnalysisState();
    SettledHeld(index.State());
    ghost var before := index.State();
    var retained := program.Keys - {edited};
    StableSelf(program, retained);
    OneEvicted(before, program, edited);
    index.Invalidate(program, 1, retained);
    ghost var patched := index.State();
    rows := index.References(program, id);
    paths := index.paths;
    OneRescanned(before, patched, index.past.held, program, edited, other, id);
    Nonempty(program, edited, id);
    Nonempty(program, other, id);
    RowsAt(index.past.held, paths, edited, id);
    MissingAt(index.past.held, program, other, id);
  }

  lemma OneEvicted(s: IndexState, program: Scans, edited: Path)
    requires Formed(s) && Settled(s) && s.truth == program && edited in program
    requires forall path :: path in program ==> program[path].durable
    ensures s.files.Keys - KeptFiles(s.files, program.Keys - {edited}) == {edited}
  {
    hide DeltaFormed, RowsFormed, Emptied;
  }

  lemma OneRescanned(before: IndexState, patched: IndexState, held: map<Path, Refs>, program: Scans, edited: Path, other: Path, id: SymbolID)
    requires forall path :: path in before.held ==> id !in before.held[path]
    requires patched.held == before.held - {edited} && patched.refreshPaths == {edited} && patched.merged.Some? && patched.truth == program
    requires edited in program && other in program && edited != other && held == EnsuredHeld(patched)
    ensures HeldAt(held, edited, id) == SpansAt(program[edited].refs, id) && HeldAt(held, other, id) == []
  {
  }

  lemma RowsAt(held: map<Path, Refs>, paths: seq<Path>, path: Path, id: SymbolID)
    requires path in SetOf(paths) && HeldAt(held, path, id) != []
    ensures Gather(Columns(paths, held, id)) != []
  {
    hide HeldAt;
    var columns := Columns(paths, held, id);
    var k :| 0 <= k < |paths| && paths[k] == path;
    var row := Tag(k, columns[k])[0];
    GatherMember(columns, row);
    hide Gather;
  }

  lemma MissingAt(held: map<Path, Refs>, program: Scans, path: Path, id: SymbolID)
    requires path in program && SpansAt(program[path].refs, id) != [] && HeldAt(held, path, id) == []
    ensures !HeldAll(held, program, id)
  {
    hide SpansAt, HeldAt;
  }

  /** Two updates with an abandoned analyze between them: the changes answered after the second are measured from
  the first, so a symbol moved by the first alone goes unnamed. */
  method AbandonedAnalyzeMovesBase(closed: Scans, first: Scans, second: Scans, a: Path, b: Path, id: SymbolID) returns (ids: set<SymbolID>, exact: bool)
    requires ScansFormed(closed) && a in closed && b in closed && a != b
    requires Stable(closed, first, closed.Keys - {a}) && Stable(first, second, closed.Keys - {b})
    requires forall path :: path in closed ==> closed[path].durable && first[path].durable
    requires SpansAt(closed[a].refs, id) != SpansAt(first[a].refs, id) && id !in first[b].refs && id !in second[b].refs
    ensures exact && id !in ids && SpansAt(closed[a].refs, id) != SpansAt(second[a].refs, id)
  {
    hide ScansFormed, Formed, EnsuredHeld, Stable, KeptFiles, Mentions, SpansAt;
    var index := new ReferenceIndex(closed);
    index.Ensure(closed);
    OneEvicted(index.State(), closed, a);
    index.Invalidate(first, 1, closed.Keys - {a});
    index.Ensure(first);
    StableKeys(closed, first, closed.Keys - {a});
    OneEvicted(index.State(), first, b);
    index.Invalidate(second, 1, closed.Keys - {b});
    assert index.past.base == first;
    assert index.past.moved == {b};
    ids, exact := index.ChangedReferences(second);
    Elsewhere(first, second, closed.Keys - {b}, a, b, id);
  }

  lemma StableKeys(truth: Scans, program: Scans, retained: set<Path>)
    requires Stable(truth, program, retained)
    ensures truth.Keys == program.Keys
  {
  }

  lemma Elsewhere(first: Scans, second: Scans, retained: set<Path>, a: Path, b: Path, id: SymbolID)
    requires Stable(first, second, retained) && a in first && b in first && a in retained && first[a].durable
    requires id !in first[b].refs && id !in second[b].refs
    ensures first[a] == second[a] && !Mentions(first, {b}, id) && !Mentions(second, {b}, id)
  {
    hide ScansFormed;
  }
}
