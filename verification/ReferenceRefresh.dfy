/** Rescanning the invalidated files of the reference index (internal/typefacts/tsgo/references.go:17-103, 198-348). */
module ReferenceRefreshes {
  import opened Order
  import opened SortedRows
  import opened Facts
  import opened ReferenceRows
  import opened ReferenceStates

  lemma BeforeRefresh(s: IndexState)
    requires Formed(s) && s.merged.Some? && s.refreshPaths != {}
    ensures TableFormed(s) && s.deltaExact && s.refreshPaths == s.moved && s.refreshPaths <= s.truth.Keys
    ensures s.refreshPaths !! s.files.Keys
  {
  }

  /** The rows held once the files of `done` are rescanned. */
  function RefreshedHeld(s: IndexState, done: set<Path>): map<Path, Refs> {
    map path | path in s.held.Keys + (done * s.truth.Keys) :: if path in done && path in s.truth then s.truth[path].refs else s.held[path]
  }

  ghost predicate Refreshing(s: IndexState, done: set<Path>, rows: Merged, entries: Scans, changed: set<SymbolID>, touched: set<SymbolID>) {
    && done <= s.refreshPaths && done <= s.truth.Keys && entries.Keys == s.files.Keys + done
    && (forall path :: path in entries ==>
      entries[path] == if path in done then FileReferences(Emptied(s.truth[path].refs), s.truth[path].durable) else s.files[path])
    && (forall id :: id in changed <==> id in s.changedSymbols || Mentions(s.truth, done, id))
    && ListedUnordered(rows, s.paths, RefreshedHeld(s, done), touched)
  }

  lemma RefreshStart(s: IndexState)
    requires Formed(s) && s.merged.Some?
    ensures Refreshing(s, {}, s.merged.value, s.files, s.changedSymbols, {})
  {
    hide DeltaFormed, FilesFormed, ScansFormed, StrictlyOrdered, HeldStrict, HeldWithin, HeldWhole, Columns, Gather, RowsFor;
    assert RefreshedHeld(s, {}) == s.held;
    forall id ensures !Mentions(s.truth, {}, id) { MentionsNone(s.truth, id); }
    hide RefreshedHeld, Mentions;
  }

  lemma NoneDone(rescan: seq<Path>)
    ensures SetOf(rescan[..0]) == {}
  {
  }

  lemma RefreshEnd(s: IndexState, rows: Merged, entries: Scans, changed: set<SymbolID>, touched: set<SymbolID>)
    requires Formed(s) && s.merged.Some? && Refreshing(s, s.refreshPaths, rows, entries, changed, touched)
    ensures RefreshedFiles(s, entries, changed)
    ensures ListedUnordered(rows, s.paths, RefreshedHeld(s, s.refreshPaths), touched) && HeldStrict(RefreshedHeld(s, s.refreshPaths))
  {
    hide Mentions, Columns, Gather, Emptied;
    RefreshedStrict(s);
  }

  lemma NextPath(rescan: seq<Path>, i: nat)
    requires StrictlyOrdered(rescan) && i < |rescan|
    ensures rescan[i] !in SetOf(rescan[..i]) && rescan[i] in SetOf(rescan)
    ensures SetOf(rescan[..i + 1]) == SetOf(rescan[..i]) + {rescan[i]}
  {
    TotalOrder();
    assert rescan[..i + 1] == rescan[..i] + [rescan[i]];
  }

  lemma RefreshPathFound(s: IndexState, path: Path)
    requires Formed(s) && s.merged.Some? && path in s.refreshPaths
    ensures var k := SearchStrings(s.paths, path); k < |s.paths| && s.paths[k] == path
    ensures StrictlyOrdered(s.paths) && path !in s.held && path in s.truth
  {
    assert path in SetOf(s.paths);
    PathFound(s.paths, path);
  }

  lemma RefreshStep(
      s: IndexState, done: set<Path>, rows: Merged, next: Merged, entries: Scans, changed: set<SymbolID>, touched: set<SymbolID>, path: Path, k: nat)
    requires Refreshing(s, done, rows, entries, changed, touched) && path !in done && path in s.refreshPaths && path in s.truth && path !in s.held
    requires StrictlyOrdered(s.paths) && k < |s.paths| && s.paths[k] == path
    requires var refs := s.truth[path].refs;
      forall id :: RowsFor(next, id) == if id in refs then RowsFor(rows, id) + Tag(k, refs[id]) else RowsFor(rows, id)
    ensures var entry := s.truth[path];
      Refreshing(s, done + {path}, next, entries[path := FileReferences(Emptied(entry.refs), entry.durable)], changed + entry.refs.Keys, touched + entry.refs.Keys)
  {
    hide Mentions, ListedUnordered, RowsFor, StrictlyOrdered, Emptied, RefreshedHeld;
    var refs := s.truth[path].refs;
    HeldMore(s, done, path);
    forall id ensures Mentions(s.truth, done + {path}, id) <==> Mentions(s.truth, done, id) || id in refs {
      MentionsMore(s.truth, done, path, id);
    }
    RowsRefreshed(rows, next, s.paths, RefreshedHeld(s, done), touched, k, refs);
  }

  lemma HeldMore(s: IndexState, done: set<Path>, path: Path)
    requires path in s.truth && path !in done && path !in s.held
    ensures path !in RefreshedHeld(s, done)
    ensures RefreshedHeld(s, done + {path}) == RefreshedHeld(s, done)[path := s.truth[path].refs]
  {
  }

  lemma RowsRefreshed(rows: Merged, next: Merged, paths: seq<Path>, held: map<Path, Refs>, touched: set<SymbolID>, k: nat, refs: Refs)
    requires ListedUnordered(rows, paths, held, touched) && StrictlyOrdered(paths) && k < |paths| && paths[k] !in held
    requires forall id :: RowsFor(next, id) == if id in refs then RowsFor(rows, id) + Tag(k, refs[id]) else RowsFor(rows, id)
    ensures ListedUnordered(next, paths, held[paths[k] := refs], touched + refs.Keys)
  {
    hide Columns, Gather, RowsFor, StrictlyOrdered;
    forall id ensures multiset(RowsFor(next, id)) == multiset(Gather(Columns(paths, held[paths[k] := refs], id)))
      && (id !in refs ==> Columns(paths, held[paths[k] := refs], id) == Columns(paths, held, id))
    {
      RefreshRows(rows, paths, held, touched, k, refs, id);
      assert id !in refs ==> RowsFor(rows, id) + Tag(k, []) == RowsFor(rows, id);
    }
  }

  lemma SortTouchedStep(rows: Merged, paths: seq<Path>, held: map<Path, Refs>, pending: set<SymbolID>, id: SymbolID)
    requires ListedUnordered(rows, paths, held, pending) && HeldStrict(held) && id in pending
    ensures ListedUnordered(rows[id := SortRefs(RowsFor(rows, id))], paths, held, pending - {id})
  {
    hide Gather, SortRefs, StrictSpans, Columns;
    ColumnsStrict(paths, held, id);
    SortedIsGather(RowsFor(rows, id), Columns(paths, held, id));
  }

  lemma ColumnsStrict(paths: seq<Path>, held: map<Path, Refs>, id: SymbolID)
    requires HeldStrict(held)
    ensures forall k :: 0 <= k < |paths| ==> StrictSpans(Columns(paths, held, id)[k])
  {
  }

  lemma SortEnd(rows: Merged, paths: seq<Path>, held: map<Path, Refs>)
    requires ListedUnordered(rows, paths, held, {})
    ensures Listed(rows, paths, held)
  {
    hide Gather, Columns;
  }

  lemma RefreshedDelta(s: IndexState, entries: Scans, changed: set<SymbolID>, next: IndexState)
    requires DeltaFormed(s) && s.deltaExact && s.refreshPaths == s.moved && !Settled(s) && Settled(next)
    requires forall id :: id in changed <==> id in s.changedSymbols || Mentions(s.truth, s.refreshPaths, id)
    requires next.truth == s.truth && next.base == s.base && next.moved == s.moved && next.deltaExact && next.changedSymbols == changed
    ensures DeltaFormed(next)
  {
    hide Mentions;
  }

  lemma RefreshedParts(s: IndexState, entries: Scans, changed: set<SymbolID>, next: IndexState)
    requires FilesFormed(s) && DeltaFormed(s) && s.deltaExact && !Settled(s) && s.refreshPaths == s.moved
    requires RefreshedFiles(s, entries, changed) && next.truth == s.truth && next.files == entries
    ensures FilesFormed(next)
    ensures forall path :: path in entries ==> path in s.truth && entries[path].refs.Keys == s.truth[path].refs.Keys
  {
    hide Mentions, Emptied;
    forall path | path in entries ensures entries[path].refs.Keys == s.truth[path].refs.Keys { EmptiedTwice(s.truth[path].refs); }
  }

  lemma RefreshedRows(s: IndexState, rows: Merged, entries: Scans, changed: set<SymbolID>, next: IndexState)
    requires FilesFormed(s) && RowsFormed(s) && s.merged.Some? && RefreshedFiles(s, entries, changed)
    requires Listed(rows, s.paths, RefreshedHeld(s, s.refreshPaths))
    requires forall path :: path in entries ==> path in s.truth && entries[path].refs.Keys == s.truth[path].refs.Keys
    requires next.merged == Some(rows) && next.paths == s.paths && next.refreshPaths == {} && next.files == entries
    requires next.held == RefreshedHeld(s, s.refreshPaths) && next.truth == s.truth
    ensures RowsFormed(next)
  {
    hide Mentions, Listed, StrictlyOrdered, HeldStrict, HeldWithin, HeldWhole, Emptied, RefreshedHeld;
    RefreshedStrict(s);
    RefreshedWithin(s, entries);
    hide FilesFormed, ScansFormed;
  }

  lemma RefreshedWithin(s: IndexState, entries: Scans)
    requires s.refreshPaths <= s.truth.Keys && entries.Keys == s.files.Keys + s.refreshPaths && HeldWithin(s.held, s.files) && FilesKept(s)
    requires forall path :: path in entries ==> path in s.truth && entries[path].refs.Keys == s.truth[path].refs.Keys
    ensures HeldWithin(RefreshedHeld(s, s.refreshPaths), entries)
    ensures HeldWhole(s.held, s.truth) ==> HeldWhole(RefreshedHeld(s, s.refreshPaths), s.truth)
  {
    hide Emptied;
    var next := RefreshedHeld(s, s.refreshPaths);
    forall path | path in next ensures next[path].Keys <= entries[path].refs.Keys {
      if path !in s.refreshPaths { EmptiedTwice(s.truth[path].refs); }
    }
  }

  lemma Refreshed(s: IndexState, rows: Merged, entries: Scans, changed: set<SymbolID>, next: IndexState)
    requires Formed(s) && s.merged.Some? && s.refreshPaths != {}
    requires RefreshedFiles(s, entries, changed)
    requires Listed(rows, s.paths, RefreshedHeld(s, s.refreshPaths))
    requires next == s.(merged := Some(rows), refreshPaths := {}, changedSymbols := changed, files := entries, held := RefreshedHeld(s, s.refreshPaths))
    ensures Formed(next)
  {
    hide Mentions, Listed, FilesFormed, DeltaFormed, RowsFormed, RefreshedHeld;
    BeforeRefresh(s);
    RefreshedDelta(s, entries, changed, next);
    RefreshedParts(s, entries, changed, next);
    RefreshedRows(s, rows, entries, changed, next);
  }

  ghost predicate RefreshedFiles(s: IndexState, entries: Scans, changed: set<SymbolID>) {
    && s.refreshPaths <= s.truth.Keys && entries.Keys == s.files.Keys + s.refreshPaths
    && (forall path :: path in entries ==>
      entries[path] == if path in s.refreshPaths then FileReferences(Emptied(s.truth[path].refs), s.truth[path].durable) else s.files[path])
    && (forall id :: id in changed <==> id in s.changedSymbols || Mentions(s.truth, s.refreshPaths, id))
  }

  lemma RefreshedStrict(s: IndexState)
    requires ScansFormed(s.truth) && HeldStrict(s.held)
    ensures HeldStrict(RefreshedHeld(s, s.refreshPaths))
  {
    hide StrictSpans;
  }

  lemma RefreshedIs(s: IndexState)
    requires s.merged.Some?
    ensures RefreshedHeld(s, s.refreshPaths) == EnsuredHeld(s)
  {
  }
}
