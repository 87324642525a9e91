/** The state of the generation-spanning reference index (internal/typefacts/tsgo/references.go:17-103, 198-348).

Scanning a source file is the checker's business: a program is what scanning each of its
files gives. Steps keep the set of source files; other updates reset the index. */
module ReferenceStates {
  import opened Order
  import opened SortedRows
  import opened Facts
  import opened ReferenceRows

  const INCREMENTAL_LIMIT: nat := 64

  /** The index, and what the proof remembers beside it: the scans of the current program, those
  the delta is measured from, the files evicted since, and the rows each path has in the merged index. */
  datatype IndexState = IndexState(
    merged: Option<Merged>, paths: seq<Path>, refreshPaths: set<Path>, changedSymbols: set<SymbolID>, deltaExact: bool,
    files: Scans, truth: Scans, base: Scans, moved: set<Path>, held: map<Path, Refs>)

  /** The remembered part. */
  datatype History = History(truth: Scans, base: Scans, moved: set<Path>, held: map<Path, Refs>)

  /** Nothing is left to rescan. */
  predicate Settled(s: IndexState) {
    s.merged.Some? && s.refreshPaths == {}
  }

  ghost predicate Mentions(scans: Scans, paths: set<Path>, id: SymbolID) {
    exists path :: path in paths && path in scans && id in scans[path].refs
  }

  ghost predicate ScansFormed(scans: Scans) {
    forall path :: path in scans ==> RefsStrict(scans[path].refs) && forall id :: id in scans[path].refs ==> scans[path].refs[id] != []
  }

  /** A scan lists a symbol only with spans, in byte order. */
  predicate RefsStrict(refs: Refs) {
    forall id :: id in refs ==> StrictSpans(refs[id])
  }

  /** Spans move into the merged rows; a file keeps which symbols it mentions. */
  function Emptied(refs: Refs): Refs {
    map id | id in refs :: []
  }

  /** A file is remembered by its symbols and durability. */
  ghost predicate FilesKept(s: IndexState) {
    forall path :: path in s.files ==>
      path in s.truth && s.files[path] == FileReferences(Emptied(s.truth[path].refs), s.truth[path].durable)
  }

  ghost predicate FilesFormed(s: IndexState) {
    FilesKept(s) && (Settled(s) ==> forall path :: path in s.truth ==> path in s.files)
  }

  /** When the delta is exact, it is exactly what the evicted files mentioned at the base and,
  once rescanned, what they mention now; every other file is as it was. */
  ghost predicate DeltaFormed(s: IndexState) {
    s.deltaExact ==>
      && s.base.Keys == s.truth.Keys && s.moved <= s.truth.Keys
      && (forall path :: path in s.truth && path !in s.moved ==> s.base[path] == s.truth[path])
      && (forall id :: id in s.changedSymbols <==> Mentions(s.base, s.moved, id) || (Settled(s) && Mentions(s.truth, s.moved, id)))
      && (!Settled(s) ==> forall path :: path in s.truth ==> (path in s.files <==> path !in s.moved))
  }

  ghost predicate RowsFormed(s: IndexState) {
    && ScansFormed(s.truth)
    && (s.refreshPaths != {} ==> s.merged.Some? && s.deltaExact && s.refreshPaths == s.moved)
    && (s.merged.Some? ==> TableFormed(s))
  }

  ghost predicate TableFormed(s: IndexState)
    requires s.merged.Some?
  {
    && StrictlyOrdered(s.paths) && SetOf(s.paths) == s.truth.Keys
    && HeldStrict(s.held) && Listed(s.merged.value, s.paths, s.held)
    && HeldWithin(s.held, s.files)
  }

  /** Each remembered file has a place in the merged rows, for symbols it mentions. */
  ghost predicate HeldWithin(held: map<Path, Refs>, files: Scans) {
    held.Keys == files.Keys && forall path :: path in held && path in files ==> held[path].Keys <= files[path].refs.Keys
  }

  ghost predicate HeldWhole(held: map<Path, Refs>, truth: Scans) {
    forall path :: path in held && path in truth ==> held[path] == truth[path].refs
  }

  ghost predicate Formed(s: IndexState) {
    FilesFormed(s) && DeltaFormed(s) && RowsFormed(s)
  }

  /** The rows a fresh index of the current program would list. */
  function FreshRows(paths: seq<Path>, truth: Scans, id: SymbolID): seq<IndexedReference> {
    Gather(Columns(paths, map path | path in truth :: truth[path].refs, id))
  }

  /** The steps the claim covers: the same source files, and a retained durable file rescans to what it was. */
  ghost predicate Stable(truth: Scans, program: Scans, retained: set<Path>) {
    && ScansFormed(program) && program.Keys == truth.Keys
    && forall path :: path in truth && path in retained && truth[path].durable ==> program[path] == truth[path]
  }

  lemma EmptiedTwice(refs: Refs)
    ensures Emptied(Emptied(refs)) == Emptied(refs) && Emptied(refs).Keys == refs.Keys
  {
  }

  lemma MentionsNone(scans: Scans, id: SymbolID)
    ensures !Mentions(scans, {}, id)
  {
  }

  lemma MentionsMore(scans: Scans, paths: set<Path>, path: Path, id: SymbolID)
    requires path in scans
    ensures Mentions(scans, paths + {path}, id) <==> Mentions(scans, paths, id) || id in scans[path].refs
  {
    if id in scans[path].refs { assert path in paths + {path}; }
  }

  lemma PathFound(paths: seq<Path>, path: Path)
    requires StrictlyOrdered(paths) && path in SetOf(paths)
    ensures var k := SearchStrings(paths, path); k < |paths| && paths[k] == path
  {
    var k :| 0 <= k < |paths| && paths[k] == path;
    SearchFinds(paths, k);
  }

  // --- what a settled index says ---

  /** Any symbol whose spans differ somewhere from those at the base is in an exact delta. */
  lemma DeltaCovers(s: IndexState, path: Path, id: SymbolID)
    requires Formed(s) && Settled(s) && s.deltaExact
    requires path in s.base && path in s.truth && SpansAt(s.base[path].refs, id) != SpansAt(s.truth[path].refs, id)
    ensures id in s.changedSymbols
  {
    assert path in s.moved;
    if id in s.base[path].refs {
      assert Mentions(s.base, s.moved, id);
    } else {
      assert Mentions(s.truth, s.moved, id);
    }
  }

  /** The rows of one symbol are complete exactly when no file's spans are missing: what each path holds
  in the merged index is what the file mentions. */
  lemma RowsFreshIff(s: IndexState, id: SymbolID)
    requires Formed(s) && Settled(s)
    ensures RowsFor(s.merged.value, id) == FreshRows(s.paths, s.truth, id) <==> HeldAll(s.held, s.truth, id)
  {
    ListedAt(s, id);
    FreshIs(s.paths, s.truth, id);
    hide Formed, FreshRows, RowsFor, Gather;
    var held, whole := Columns(s.paths, s.held, id), Columns(s.paths, AllRefs(s.truth), id);
    if Gather(held) == Gather(whole) { GatherInjective(held, whole); }
    AllColumns(s.paths, s.held, s.truth, id);
  }

  ghost predicate HeldAll(held: map<Path, Refs>, truth: Scans, id: SymbolID) {
    forall path :: path in truth ==> HeldAt(held, path, id) == SpansAt(truth[path].refs, id)
  }

  lemma AllColumns(paths: seq<Path>, held: map<Path, Refs>, truth: Scans, id: SymbolID)
    requires SetOf(paths) == truth.Keys
    ensures Columns(paths, held, id) == Columns(paths, AllRefs(truth), id) <==> HeldAll(held, truth, id)
  {
    hide HeldAt;
    forall path ensures path in truth ==> HeldAt(AllRefs(truth), path, id) == SpansAt(truth[path].refs, id) { AllAt(truth, path, id); }
    if HeldAll(held, truth, id) {
      forall k | 0 <= k < |paths| ensures HeldAt(held, paths[k], id) == HeldAt(AllRefs(truth), paths[k], id) {
        assert paths[k] in SetOf(paths);
      }
    }
    if Columns(paths, held, id) == Columns(paths, AllRefs(truth), id) {
      forall path | path in truth ensures HeldAt(held, path, id) == SpansAt(truth[path].refs, id) {
        assert path in SetOf(paths);
        var k :| 0 <= k < |paths| && paths[k] == path;
        assert Columns(paths, held, id)[k] == Columns(paths, AllRefs(truth), id)[k];
      }
    }
  }

  lemma AllAt(truth: Scans, path: Path, id: SymbolID)
    ensures path in truth ==> HeldAt(AllRefs(truth), path, id) == SpansAt(truth[path].refs, id)
  {
  }

  /** While nothing was dropped: every file's spans are in the merged index, or there is nothing yet. */
  ghost predicate Whole(s: IndexState) {
    if s.merged.Some? then HeldWhole(s.held, s.truth) else s.files == map[]
  }

  /** Then every symbol's rows are a fresh build's. */
  lemma WholeIsFresh(s: IndexState, id: SymbolID)
    requires Formed(s) && Settled(s) && Whole(s)
    ensures RowsFor(s.merged.value, id) == FreshRows(s.paths, s.truth, id)
  {
    RowsFreshIff(s, id);
    hide FreshRows, RowsFor, DeltaFormed, StrictlyOrdered, HeldStrict, ScansFormed, Listed, Emptied;
  }

  /** After a rebuild that kept some files' entries. */
  ghost predicate RebuiltOver(s: IndexState, kept: Scans) {
    && kept.Keys <= s.truth.Keys && s.held.Keys == s.truth.Keys
    && (forall path :: path in kept ==> kept[path].refs == Emptied(s.truth[path].refs))
    && (forall path :: path in s.held && path in s.truth ==> s.held[path] == if path in kept then kept[path].refs else s.truth[path].refs)
  }

  /** A rebuild merges only the files it scans: the spans of kept files were given up to the index that
  is gone. So one symbol's rows are complete exactly when no kept file mentions it. */
  lemma RebuiltIsFreshIff(s: IndexState, kept: Scans, id: SymbolID)
    requires Formed(s) && Settled(s) && RebuiltOver(s, kept)
    ensures RowsFor(s.merged.value, id) == FreshRows(s.paths, s.truth, id) <==> forall path :: path in kept ==> id !in kept[path].refs
  {
    RowsFreshIff(s, id);
    ListedAt(s, id);
    hide Formed, FreshRows, RowsFor;
    forall path | path in s.truth
      ensures HeldAt(s.held, path, id) == SpansAt(s.truth[path].refs, id) <==> !(path in kept && id in kept[path].refs)
    {
      Nonempty(s.truth, path, id);
      hide ScansFormed;
    }
  }

  lemma Nonempty(truth: Scans, path: Path, id: SymbolID)
    requires ScansFormed(truth) && path in truth
    ensures id in truth[path].refs <==> SpansAt(truth[path].refs, id) != []
  {
  }

  lemma ListedAt(s: IndexState, id: SymbolID)
    requires Formed(s) && s.merged.Some?
    ensures RowsFor(s.merged.value, id) == Gather(Columns(s.paths, s.held, id))
    ensures SetOf(s.paths) == s.truth.Keys && ScansFormed(s.truth)
  {
    hide Gather, Columns, RowsFor, FilesFormed, DeltaFormed, ScansFormed, StrictlyOrdered, HeldStrict, HeldWithin, HeldWhole;
  }

  function AllRefs(truth: Scans): map<Path, Refs> {
    map path | path in truth :: truth[path].refs
  }

  lemma FreshIs(paths: seq<Path>, truth: Scans, id: SymbolID)
    ensures FreshRows(paths, truth, id) == Gather(Columns(paths, AllRefs(truth), id))
  {
    hide Gather;
    assert AllRefs(truth) == map path | path in truth :: truth[path].refs;
  }

  lemma SettledPaths(s: IndexState)
    requires Formed(s) && Settled(s)
    ensures s.merged.Some? && StrictlyOrdered(s.paths) && SetOf(s.paths) == s.truth.Keys
  {
    hide FilesFormed, DeltaFormed, ScansFormed, StrictlyOrdered, HeldStrict, Listed, HeldWithin, HeldWhole;
  }

  /** What `ensure` leaves each path holding: a build has only the spans of the files it scanned, since a
  remembered file gave its own up; a refresh adds those of the rescanned files. */
  function EnsuredHeld(s: IndexState): map<Path, Refs> {
    if s.merged.None? then map path | path in s.truth :: if path in s.files then Emptied(s.truth[path].refs) else s.truth[path].refs
    else map path | path in s.held.Keys + (s.refreshPaths * s.truth.Keys)
      :: if path in s.refreshPaths && path in s.truth then s.truth[path].refs else s.held[path]
  }

  lemma SettledHeld(s: IndexState)
    ensures Settled(s) ==> EnsuredHeld(s) == s.held
  {
    if Settled(s) { assert s.held.Keys + (s.refreshPaths * s.truth.Keys) == s.held.Keys; }
  }

  lemma EmptyFormed(program: Scans, base: Scans)
    requires ScansFormed(program)
    ensures Formed(IndexState(None, [], {}, {}, false, map[], program, base, {}, map[]))
  {
    hide ScansFormed;
  }
}
