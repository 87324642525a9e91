/** Building the reference index (internal/typefacts/tsgo/references.go:17-103, 198-348). */
module ReferenceBuilds {
  import opened Order
  import opened SortedRows
  import opened Facts
  import opened ReferenceRows
  import opened ReferenceStates

  lemma BeforeBuild(s: IndexState)
    requires Formed(s)
    ensures s.files.Keys <= s.truth.Keys
  {
  }

  /** Part of the missing files has been scanned. */
  ghost predicate Scanned(s: IndexState, sorted: seq<Path>, i: nat, entries: Scans, changed: set<SymbolID>, scanned: set<Path>) {
    && i <= |sorted| && SetOf(sorted) == s.truth.Keys
    && entries.Keys == s.files.Keys + scanned && scanned !! s.files.Keys && scanned <= s.truth.Keys
    && (forall path :: path in entries ==> entries[path] == if path in s.files then s.files[path] else s.truth[path])
    && (forall k :: 0 <= k < i ==> sorted[k] in entries)
    && (forall id :: id in changed <==> id in s.changedSymbols || (s.deltaExact && Mentions(s.truth, scanned, id)))
  }

  lemma ScanStart(s: IndexState, sorted: seq<Path>)
    requires SetOf(sorted) == s.truth.Keys && s.files.Keys <= s.truth.Keys
    ensures Scanned(s, sorted, 0, s.files, s.changedSymbols, {})
  {
    forall id ensures !Mentions(s.truth, {}, id) { MentionsNone(s.truth, id); }
    hide Mentions;
  }

  lemma ScanStep(s: IndexState, sorted: seq<Path>, i: nat, entries: Scans, changed: set<SymbolID>, scanned: set<Path>)
    requires Scanned(s, sorted, i, entries, changed, scanned) && i < |sorted|
    requires s.files.Keys <= s.truth.Keys
    ensures sorted[i] in s.truth
    ensures sorted[i] in entries ==> Scanned(s, sorted, i + 1, entries, changed, scanned)
    ensures sorted[i] !in entries ==> Scanned(s, sorted, i + 1, entries[sorted[i] := s.truth[sorted[i]]],
      if s.deltaExact then changed + s.truth[sorted[i]].refs.Keys else changed, scanned + {sorted[i]})
  {
    hide Mentions;
    assert sorted[i] in SetOf(sorted);
    if sorted[i] !in entries {
      forall id ensures Mentions(s.truth, scanned + {sorted[i]}, id) <==> Mentions(s.truth, scanned, id) || id in s.truth[sorted[i]].refs {
        MentionsMore(s.truth, scanned, sorted[i], id);
      }
    }
  }

  function EmptiedFiles(entries: Scans): Scans {
    map path | path in entries :: FileReferences(Emptied(entries[path].refs), entries[path].durable)
  }

  lemma ScanEnd(s: IndexState, sorted: seq<Path>, entries: Scans, changed: set<SymbolID>, scanned: set<Path>)
    requires Scanned(s, sorted, |sorted|, entries, changed, scanned)
    ensures forall k :: 0 <= k < |sorted| ==> sorted[k] in entries
  {
  }

  function RefsOf(entries: Scans): map<Path, Refs> {
    map path | path in entries :: entries[path].refs
  }

  ghost predicate MergedTo(sorted: seq<Path>, entries: Scans, i: nat, rows: Merged) {
    && i <= |sorted| && (forall k :: 0 <= k < |sorted| ==> sorted[k] in entries)
    && (forall id :: RowsFor(rows, id) == Gather(Columns(sorted[..i], RefsOf(entries), id)))
  }

  lemma MergeStart(sorted: seq<Path>, entries: Scans)
    requires forall k :: 0 <= k < |sorted| ==> sorted[k] in entries
    ensures MergedTo(sorted, entries, 0, map[])
  {
    assert sorted[..0] == [];
  }

  lemma MergeParts(sorted: seq<Path>, entries: Scans, i: nat, rows: Merged)
    requires MergedTo(sorted, entries, i, rows) && i < |sorted|
    ensures sorted[i] in entries
  {
  }

  lemma MergeNext(sorted: seq<Path>, entries: Scans, i: nat, rows: Merged, next: Merged)
    requires MergedTo(sorted, entries, i, rows) && i < |sorted|
    requires var refs := entries[sorted[i]].refs;
      forall id :: RowsFor(next, id) == if id in refs then RowsFor(rows, id) + Tag(i, refs[id]) else RowsFor(rows, id)
    ensures MergedTo(sorted, entries, i + 1, next)
  {
    hide RowsFor;
    var refs, held := entries[sorted[i]].refs, RefsOf(entries);
    forall id ensures RowsFor(next, id) == Gather(Columns(sorted[..i + 1], held, id)) {
      var front, all := Columns(sorted[..i], held, id), Columns(sorted[..i + 1], held, id);
      assert all == front + [SpansAt(refs, id)];
      assert all[..i] == front;
      assert Gather(all) == Gather(front) + Tag(i, SpansAt(refs, id));
    }
  }

  lemma MergeEnd(sorted: seq<Path>, entries: Scans, rows: Merged)
    requires MergedTo(sorted, entries, |sorted|, rows)
    ensures Listed(rows, sorted, RefsOf(entries))
  {
    hide Gather, Columns;
    assert sorted[..|sorted|] == sorted;
  }

  lemma BuiltFiles(s: IndexState, sorted: seq<Path>, entries: Scans, changed: set<SymbolID>, scanned: set<Path>, next: IndexState)
    requires FilesFormed(s) && Scanned(s, sorted, |sorted|, entries, changed, scanned) && next.truth == s.truth
    requires next.files == EmptiedFiles(entries)
    ensures FilesFormed(next) && entries.Keys == s.truth.Keys
  {
    hide Mentions, Emptied;
    forall path | path in s.truth ensures path in entries { assert path in SetOf(sorted); }
    forall path | path in entries ensures next.files[path] == FileReferences(Emptied(s.truth[path].refs), s.truth[path].durable) {
      EmptiedTwice(s.truth[path].refs);
    }
  }

  lemma BuiltDelta(s: IndexState, sorted: seq<Path>, entries: Scans, changed: set<SymbolID>, scanned: set<Path>, next: IndexState)
    requires DeltaFormed(s) && !Settled(s) && Scanned(s, sorted, |sorted|, entries, changed, scanned) && entries.Keys == s.truth.Keys
    requires Settled(next) && next.truth == s.truth && next.base == s.base && next.moved == s.moved
    requires next.deltaExact == s.deltaExact && next.changedSymbols == changed && s.files.Keys <= s.truth.Keys
    ensures DeltaFormed(next)
  {
    hide Mentions;
    if s.deltaExact { assert scanned == s.moved; }
  }

  lemma BuiltRows(s: IndexState, sorted: seq<Path>, entries: Scans, changed: set<SymbolID>, scanned: set<Path>, rows: Merged, next: IndexState)
    requires FilesFormed(s) && RowsFormed(s) && s.merged.None? && StrictlyOrdered(sorted)
    requires Scanned(s, sorted, |sorted|, entries, changed, scanned) && entries.Keys == s.truth.Keys && Listed(rows, sorted, RefsOf(entries))
    requires next.files == EmptiedFiles(entries)
    requires next.merged == Some(rows) && next.paths == sorted && next.refreshPaths == {} && next.held == RefsOf(entries)
    requires next.truth == s.truth
    ensures RowsFormed(next)
  {
    hide Mentions, Listed, StrictlyOrdered, StrictSpans;
    forall path | path in entries ensures RefsStrict(entries[path].refs) { EmptiedStrict(s.truth[path].refs); }
    forall path | path in entries ensures next.held[path].Keys <= next.files[path].refs.Keys { EmptiedTwice(entries[path].refs); }
    hide Emptied;
  }

  lemma BuiltOver(s: IndexState, sorted: seq<Path>, entries: Scans, changed: set<SymbolID>, scanned: set<Path>, next: IndexState)
    requires FilesFormed(s) && Scanned(s, sorted, |sorted|, entries, changed, scanned)
    requires next.truth == s.truth && next.held == RefsOf(entries)
    ensures RebuiltOver(next, s.files)
  {
    hide Mentions, Emptied;
    forall path | path in s.truth ensures path in entries { assert path in SetOf(sorted); }
  }

  lemma EmptiedStrict(refs: Refs)
    ensures RefsStrict(Emptied(refs))
  {
  }

  lemma Built(s: IndexState, sorted: seq<Path>, entries: Scans, changed: set<SymbolID>, scanned: set<Path>, rows: Merged, next: IndexState)
    requires Formed(s) && s.merged.None? && StrictlyOrdered(sorted) && Scanned(s, sorted, |sorted|, entries, changed, scanned)
    requires Listed(rows, sorted, RefsOf(entries))
    requires next == s.(merged := Some(rows), paths := sorted, refreshPaths := {}, changedSymbols := changed, held := RefsOf(entries),
      files := EmptiedFiles(entries))
    ensures Formed(next) && RebuiltOver(next, s.files)
  {
    hide DeltaFormed, FilesFormed, RowsFormed, Scanned, Mentions, Listed, StrictlyOrdered;
    BeforeBuild(s);
    BuiltOver(s, sorted, entries, changed, scanned, next);
    BuiltFiles(s, sorted, entries, changed, scanned, next);
    BuiltDelta(s, sorted, entries, changed, scanned, next);
    BuiltRows(s, sorted, entries, changed, scanned, rows, next);
  }

  lemma BuiltHeld(s: IndexState, sorted: seq<Path>, entries: Scans, changed: set<SymbolID>, scanned: set<Path>)
    requires Formed(s) && s.merged.None? && Scanned(s, sorted, |sorted|, entries, changed, scanned)
    ensures RefsOf(entries) == EnsuredHeld(s)
  {
    hide DeltaFormed, RowsFormed, Mentions, Emptied;
    forall path ensures path in entries <==> path in s.truth {
      if path in s.truth { assert path in SetOf(sorted); }
    }
  }
}
