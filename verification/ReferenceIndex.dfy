/** The generation-spanning reference index (internal/typefacts/tsgo/references.go:17-103, 198-348): its fields and the steps that update them. */
module ReferenceIndexes {
  import opened Order
  import opened SortedRows
  import opened Facts
  import opened ReferenceRows
  import opened ReferenceStates
  import opened ReferenceInvalidations
  import opened ReferenceBuilds
  import opened ReferenceRefreshes
  import opened ReferenceReleases
  import opened ReferenceAnswers

  class ReferenceIndex {
    var merged: Option<Merged>
    var paths: seq<Path>
    var used: set<SymbolID>
    var refreshPaths: set<Path>
    var changedSymbols: set<SymbolID>
    var deltaExact: bool
    var files: Scans
    ghost var past: History

    ghost function State(): IndexState
      reads this
    {
      IndexState(merged, paths, refreshPaths, changedSymbols, deltaExact, files, past.truth, past.base, past.moved, past.held)
    }

    ghost predicate Valid()
      reads this
    {
      Formed(State())
    }

    constructor (ghost program: Scans)
      requires ScansFormed(program)
      ensures Valid() && past.truth == program && !deltaExact && merged.None? && Whole(State()) && used == {}
    {
      EmptyFormed(program, program);
      hide Formed;
      merged, paths, used, refreshPaths, changedSymbols, deltaExact, files := None, [], {}, {}, {}, false, map[];
      past := History(program, program, {}, map[]);
    }

    /** A full rebuild forgets everything, whatever the new program. */
    method Reset(ghost program: Scans)
      requires ScansFormed(program)
      modifies this
      ensures Valid() && past.truth == program && !deltaExact && merged.None? && Whole(State()) && used == {}
    {
      EmptyFormed(program, past.base);
      hide Formed;
      merged, paths, used, refreshPaths, changedSymbols, deltaExact, files := None, [], {}, {}, {}, false, map[];
      past := History(program, past.base, {}, map[]);
    }

    /** `invalidate`. Files neither retained nor durable are evicted; the delta stays exact across
    any chain of invalidations that began from a settled index. */
    method Invalidate(ghost program: Scans, affectedCount: nat, retained: set<Path>)
      requires Valid() && Stable(past.truth, program, retained)
      modifies this
      ensures Valid() && past.truth == program
      ensures deltaExact == old(merged.Some? || deltaExact)
      ensures past.base == if old(Settled(State())) then old(past.truth) else old(past.base)
      ensures files.Keys == KeptFiles(old(files), retained) && used == old(used)
      ensures past.held == if merged.Some? then old(past.held) - (old(files).Keys - files.Keys) else map[]
      ensures refreshPaths == if merged.Some? then old(files).Keys - files.Keys else {}
      ensures past.moved == (old(files).Keys - files.Keys) + if old(!Settled(State()) && deltaExact) then old(past.moved) else {}
      ensures merged.Some? <==> old(merged.Some? && affectedCount <= INCREMENTAL_LIMIT && !(deltaExact && refreshPaths != {}))
    {
      hide Formed, TableFormed, Evicting, EvictedRows, Stable, Settled, KeptFiles;
      ghost var before := State();
      BeforeInvalidate(before);
      var composing := deltaExact && (merged.None? || refreshPaths != {});
      var hadExactBase := merged.Some? || composing;
      var incremental := merged.Some? && affectedCount <= INCREMENTAL_LIMIT && !composing;
      var start := if composing then changedSymbols else {};
      ghost var evicted: set<Path>;
      var entries, rows, changed, refreshing;
      entries, rows, changed, refreshing, evicted := EvictFiles(files, if merged.Some? then merged.value else map[], paths,
        retained, hadExactBase, incremental, start, before);
      EvictedWhich(before, retained, hadExactBase, changed, start, evicted, entries);
      if incremental {
        Patch(program, retained, entries, rows, changed, refreshing);
      } else {
        Drop(program, retained, composing, entries, changed, evicted);
      }
    }

    /** The merged rows stay, without those of the evicted files, which wait to be rescanned. */
    method Patch(ghost program: Scans, ghost retained: set<Path>, entries: Scans, rows: Merged, changed: set<SymbolID>, refreshing: set<Path>)
      requires Valid() && Settled(State()) && Stable(past.truth, program, retained)
      requires Evicting(State(), retained, true, changed, {}, {}, refreshing, entries)
      requires EvictedRows(State(), refreshing, rows, State().held - refreshing)
      modifies this
      ensures Valid() && past.truth == program && past.base == old(past.truth) && deltaExact
      ensures files == entries && merged.Some? && used == old(used) && past.held == old(past.held) - refreshing && refreshPaths == refreshing
      ensures past.moved == refreshing
    {
      hide Formed, Evicting, EvictedRows, Stable, Settled;
      EvictedIncrementally(State(), retained, program, entries, rows, changed, refreshing);
      files, merged, refreshPaths, changedSymbols, deltaExact := entries, Some(rows), refreshing, changed, true;
      past := History(program, past.truth, refreshing, past.held - refreshing);
    }

    /** The merged rows go. */
    method Drop(ghost program: Scans, ghost retained: set<Path>, composing: bool, entries: Scans, changed: set<SymbolID>, ghost evicted: set<Path>)
      requires Valid() && Stable(past.truth, program, retained)
      requires composing == (deltaExact && (merged.None? || refreshPaths != {}))
      requires Evicting(State(), retained, merged.Some? || composing, changed, if composing then changedSymbols else {}, {}, evicted, entries)
      modifies this
      ensures Valid() && past.truth == program && deltaExact == old(merged.Some? || composing)
      ensures files == entries && merged.None? && used == old(used) && past.held == map[] && refreshPaths == {}
      ensures past.base == if old(Settled(State())) then old(past.truth) else old(past.base)
      ensures past.moved == evicted + if composing then old(past.moved) else {}
    {
      hide Formed, Evicting, Stable, DroppedHistory, DroppedState, Settled;
      ghost var before := State();
      EvictedBroadly(before, retained, program, composing, entries, changed, evicted);
      DroppedParts(before, program, composing, entries, changed, evicted);
      past := DroppedHistory(before, program, composing, entries, evicted);
      deltaExact := merged.Some? || composing;
      files, merged, paths, refreshPaths, changedSymbols := entries, None, [], {}, changed;
      assert State() == DroppedState(before, program, composing, entries, changed, evicted);
    }

    /** The loop over the files: in the incremental form each evicted file's rows are filtered out too. */
    static method EvictFiles(files: Scans, merged: Merged, paths: seq<Path>, retained: set<Path>, hadExactBase: bool, incremental: bool,
        start: set<SymbolID>, ghost before: IndexState)
      returns (entries: Scans, rows: Merged, changed: set<SymbolID>, refreshing: set<Path>, ghost evicted: set<Path>)
      requires before.files == files && before.paths == paths && before.files.Keys <= before.truth.Keys
      requires incremental ==> before.merged == Some(merged) && TableFormed(before)
      ensures Evicting(before, retained, hadExactBase, changed, start, {}, evicted, entries)
      ensures incremental ==> refreshing == evicted && EvictedRows(before, evicted, rows, before.held - evicted)
    {
      hide *;
      entries, rows, changed, refreshing, evicted := files, merged, start, {}, {};
      var pending := files.Keys;
      EvictStart(before, retained, hadExactBase, start);
      while pending != {}
        invariant Evicting(before, retained, hadExactBase, changed, start, pending, evicted, entries)
        invariant incremental ==> refreshing == evicted && EvictedRows(before, evicted, rows, before.held - evicted)
        decreases |pending|
      {
        var path :| path in pending;
        InPending(before, retained, hadExactBase, changed, start, pending, evicted, entries, path);
        pending := pending - {path};
        var entry := entries[path];
        if path in retained && entry.durable {
          KeepStep(before, retained, hadExactBase, changed, start, pending, evicted, entries, path);
        } else {
          EvictStep(before, retained, hadExactBase, changed, start, pending, evicted, entries, path);
          if hadExactBase { changed := changed + entry.refs.Keys; }
          if incremental {
            HeldHas(before, path);
            rows := EvictPath(rows, paths, path, entry.refs.Keys, before, evicted);
            refreshing := refreshing + {path};
          }
          entries := entries - {path};
          evicted := evicted + {path};
        }
      }
    }

    /** One evicted path leaves every symbol's rows. */
    static method EvictPath(rows: Merged, paths: seq<Path>, path: Path, ids: set<SymbolID>, ghost before: IndexState, ghost evicted: set<Path>) returns (next: Merged)
      requires before.merged.Some? && TableFormed(before) && path in SetOf(before.paths)
      requires EvictedRows(before, evicted, rows, before.held - evicted)
      requires path in before.held && before.held[path].Keys <= ids
      requires before.paths == paths
      ensures EvictedRows(before, evicted + {path}, next, before.held - (evicted + {path}))
    {
      hide *;
      TablePaths(before);
      var k := SearchStrings(paths, path);
      PathFound(paths, path);
      next := rows;
      var pending := ids;
      FilterStart(rows, ids, k);
      while pending != {}
        invariant FilteredIn(rows, next, ids, pending, k)
        decreases |pending|
      {
        var id :| id in pending;
        FilterStep(rows, next, ids, pending, k, id);
        pending := pending - {id};
        var kept := WithoutPath(RowsFor(next, id), k);
        if kept == [] {
          next := next - {id};
        } else {
          next := next[id := kept];
        }
      }
      FilterEnd(rows, next, ids, k);
      RowsEvicted(before, evicted, rows, next, path, ids, k);
    }

    /** `ensure`: build the merged rows, or rescan the evicted files into them. */
    method Ensure(program: Scans)
      requires Valid() && program == past.truth
      modifies this
      ensures Valid() && Settled(State())
      ensures past.truth == old(past.truth) && past.base == old(past.base) && deltaExact == old(deltaExact)
      ensures old(Settled(State())) ==> State() == old(State())
      ensures old(merged.None?) ==> RebuiltOver(State(), old(files))
      ensures used == old(used) && past.held == EnsuredHeld(old(State())) && past.moved == old(past.moved)
    {
      SettledHeld(State());
      hide Formed, FilesFormed, DeltaFormed, RowsFormed, Mentions, Listed, EnsuredHeld;
      if merged.None? {
        Build(program);
      } else if refreshPaths != {} {
        Refresh(program);
      }
    }

    method Build(program: Scans)
      requires Valid() && program == past.truth && merged.None?
      modifies this
      ensures Valid() && Settled(State())
      ensures past.truth == old(past.truth) && past.base == old(past.base) && deltaExact == old(deltaExact)
      ensures RebuiltOver(State(), old(files))
      ensures used == old(used) && past.held == EnsuredHeld(old(State())) && past.moved == old(past.moved)
    {
      hide RebuiltOver, EnsuredHeld;
      hide Formed, Listed, Scanned, MergedTo, StrictlyOrdered, SetOf, EmptiedFiles, RefsOf;
      ghost var before := State();
      BeforeBuild(before);
      var sorted := SortedKeys(program.Keys);
      var entries, changed;
      ghost var scanned: set<Path>;
      entries, changed, scanned := ScanMissing(files, program, sorted, changedSymbols, deltaExact, before);
      ScanEnd(before, sorted, entries, changed, scanned);
      var rows := MergeAll(sorted, entries);
      files, changedSymbols, merged := EmptiedFiles(entries), changed, Some(rows);
      BuiltHeld(before, sorted, entries, changed, scanned);
      paths, refreshPaths, past := sorted, {}, past.(held := RefsOf(entries));
      Built(before, sorted, entries, changed, scanned, rows, State());
    }

    /** Only files without a retained entry are scanned. */
    static method ScanMissing(files: Scans, program: Scans, sorted: seq<Path>, changedSymbols: set<SymbolID>, deltaExact: bool, ghost before: IndexState)
      returns (entries: Scans, changed: set<SymbolID>, ghost scanned: set<Path>)
      requires before.files == files && before.truth == program && before.changedSymbols == changedSymbols && before.deltaExact == deltaExact
      requires SetOf(sorted) == program.Keys && files.Keys <= program.Keys
      ensures Scanned(before, sorted, |sorted|, entries, changed, scanned)
    {
      hide *;
      entries, changed, scanned := files, changedSymbols, {};
      ScanStart(before, sorted);
      for i := 0 to |sorted|
        invariant Scanned(before, sorted, i, entries, changed, scanned)
      {
        var path := sorted[i];
        ScanStep(before, sorted, i, entries, changed, scanned);
        if path !in entries {
          entries := entries[path := program[path]];
          if deltaExact { changed := changed + program[path].refs.Keys; }
          scanned := scanned + {path};
        }
      }
    }

    static method MergeAll(sorted: seq<Path>, entries: Scans) returns (rows: Merged)
      requires forall k :: 0 <= k < |sorted| ==> sorted[k] in entries
      ensures Listed(rows, sorted, RefsOf(entries))
    {
      hide *;
      rows := map[];
      MergeStart(sorted, entries);
      for i := 0 to |sorted|
        invariant MergedTo(sorted, entries, i, rows)
      {
        rows := MergePath(rows, sorted, entries, i);
      }
      MergeEnd(sorted, entries, rows);
    }

    static method MergePath(rows: Merged, sorted: seq<Path>, entries: Scans, i: nat) returns (next: Merged)
      requires i < |sorted| && MergedTo(sorted, entries, i, rows)
      ensures MergedTo(sorted, entries, i + 1, next)
    {
      hide *;
      MergeParts(sorted, entries, i, rows);
      var refs := entries[sorted[i]].refs;
      next := rows;
      var pending := refs.Keys;
      AppendStart(rows, refs, i);
      while pending != {}
        invariant AppendedIn(rows, next, refs, pending, i)
        decreases |pending|
      {
        var id :| id in pending;
        AppendStep(rows, next, refs, pending, i, id);
        pending := pending - {id};
        next := next[id := RowsFor(next, id) + Tag(i, refs[id])];
      }
      AppendEnd(rows, next, refs, i);
      MergeNext(sorted, entries, i, rows, next);
    }

    method Refresh(program: Scans)
      requires Valid() && program == past.truth && merged.Some? && refreshPaths != {}
      modifies this
      ensures Valid() && Settled(State())
      ensures past.truth == old(past.truth) && past.base == old(past.base) && deltaExact == old(deltaExact)
      ensures used == old(used) && past.held == EnsuredHeld(old(State())) && past.moved == old(past.moved)
    {
      hide EnsuredHeld;
      hide Formed, TableFormed, ListedUnordered, Listed, Refreshing, RefreshedHeld, StrictlyOrdered, SetOf, HeldStrict, RefreshedFiles;
      ghost var before := State();
      BeforeRefresh(before);
      var rescan := SortedKeys(refreshPaths);
      var rows, entries, changed, touched := Rescan(rescan, merged.value, paths, files, program, changedSymbols, deltaExact, before);
      RefreshEnd(before, rows, entries, changed, touched);
      rows := SortTouched(rows, touched, paths, RefreshedHeld(before, refreshPaths));
      files, changedSymbols, merged := entries, changed, Some(rows);
      RefreshedIs(before);
      refreshPaths, past := {}, past.(held := RefreshedHeld(before, refreshPaths));
      Refreshed(before, rows, entries, changed, State());
    }

    /** Every evicted file is scanned again and its spans appended. */
    static method Rescan(rescan: seq<Path>, merged: Merged, paths: seq<Path>, files: Scans, program: Scans, changedSymbols: set<SymbolID>,
        deltaExact: bool, ghost before: IndexState)
      returns (rows: Merged, entries: Scans, changed: set<SymbolID>, touched: set<SymbolID>)
      requires Formed(before) && before.merged == Some(merged) && before.paths == paths && before.files == files
      requires before.truth == program && before.changedSymbols == changedSymbols && before.deltaExact && deltaExact
      requires StrictlyOrdered(rescan) && SetOf(rescan) == before.refreshPaths && before.refreshPaths != {}
      ensures Refreshing(before, before.refreshPaths, rows, entries, changed, touched)
    {
      hide *;
      rows, entries, changed, touched := merged, files, changedSymbols, {};
      RefreshStart(before);
      ghost var done: set<Path> := {};
      NoneDone(rescan);
      for i := 0 to |rescan|
        invariant done == SetOf(rescan[..i])
        invariant Refreshing(before, done, rows, entries, changed, touched)
      {
        var path := rescan[i];
        NextPath(rescan, i);
        RefreshPathFound(before, path);
        var entry := program[path];
        rows, touched := AppendPath(rows, paths, touched, before, done, entries, changed, path, entry.refs);
        if deltaExact { changed := changed + entry.refs.Keys; }
        entries := entries[path := FileReferences(Emptied(entry.refs), entry.durable)];
        done := done + {path};
      }
      assert rescan[..|rescan|] == rescan;
    }

    static method AppendPath(rows: Merged, paths: seq<Path>, touched: set<SymbolID>, ghost before: IndexState, ghost done: set<Path>, ghost entries: Scans,
        ghost changed: set<SymbolID>, path: Path, refs: Refs) returns (next: Merged, touchedNext: set<SymbolID>)
      requires before.merged.Some? && Formed(before) && before.paths == paths
      requires path in before.refreshPaths && path !in done && path in before.truth && before.truth[path].refs == refs
      requires Refreshing(before, done, rows, entries, changed, touched)
      ensures touchedNext == touched + refs.Keys
      ensures Refreshing(before, done + {path}, next, entries[path := FileReferences(Emptied(refs), before.truth[path].durable)],
        changed + refs.Keys, touchedNext)
    {
      hide *;
      var k := SearchStrings(paths, path);
      RefreshPathFound(before, path);
      next, touchedNext := rows, touched + refs.Keys;
      var pending := refs.Keys;
      AppendStart(rows, refs, k);
      while pending != {}
        invariant AppendedIn(rows, next, refs, pending, k)
        decreases |pending|
      {
        var id :| id in pending;
        AppendStep(rows, next, refs, pending, k, id);
        pending := pending - {id};
        next := next[id := RowsFor(next, id) + Tag(k, refs[id])];
      }
      AppendEnd(rows, next, refs, k);
      RefreshStep(before, done, rows, next, entries, changed, touched, path, k);
    }

    static method SortTouched(rows: Merged, touched: set<SymbolID>, ghost paths: seq<Path>, ghost held: map<Path, Refs>) returns (next: Merged)
      requires ListedUnordered(rows, paths, held, touched) && HeldStrict(held)
      ensures Listed(next, paths, held)
    {
      hide *;
      next := rows;
      var pending := touched;
      while pending != {}
        invariant ListedUnordered(next, paths, held, pending)
        decreases |pending|
      {
        var id :| id in pending;
        SortTouchedStep(next, paths, held, pending, id);
        pending := pending - {id};
        next := next[id := SortRefs(RowsFor(next, id))];
      }
      SortEnd(next, paths, held);
    }

    /** `ChangedReferences`, after `ensure`: never consumed, so asking again answers the same. */
    method ChangedReferences(program: Scans) returns (ids: set<SymbolID>, exact: bool)
      requires Valid() && program == past.truth
      modifies this
      ensures Valid() && Settled(State()) && past.truth == old(past.truth) && past.base == old(past.base)
      ensures exact == old(deltaExact) && ids == (if exact then changedSymbols else {}) && deltaExact == old(deltaExact)
      ensures past.held == EnsuredHeld(old(State())) && used == old(used) && past.moved == old(past.moved)
      ensures old(Settled(State())) ==> State() == old(State())
      ensures exact ==> past.base.Keys == past.truth.Keys
      ensures exact ==> forall path, id :: path in past.truth && SpansAt(past.base[path].refs, id) != SpansAt(past.truth[path].refs, id) ==> id in ids
      ensures exact ==> forall id :: id in ids <==> Mentions(past.base, past.moved, id) || Mentions(past.truth, past.moved, id)
      ensures exact ==> forall path :: path in past.truth && path !in past.moved ==> past.base[path] == past.truth[path]
    {
      Ensure(program);
      exact := deltaExact;
      ids := if exact then changedSymbols else {};
      if exact {
        ghost var s := State();
        forall path, id | path in past.truth && path in past.base && SpansAt(past.base[path].refs, id) != SpansAt(past.truth[path].refs, id) ensures id in ids {
          DeltaCovers(s, path, id);
        }
      }
    }

    /** The rows of one symbol, recorded as used: complete exactly when no file's spans are missing. */
    method References(program: Scans, id: SymbolID) returns (rows: seq<IndexedReference>)
      requires Valid() && program == past.truth
      modifies this
      ensures Valid() && Settled(State()) && past.truth == old(past.truth) && past.base == old(past.base)
      ensures past.held == EnsuredHeld(old(State())) && used == old(used) + {id}
      ensures rows == FreshRows(paths, past.truth, id) <==> HeldAll(past.held, past.truth, id)
      ensures StrictlyOrdered(paths) && SetOf(paths) == past.truth.Keys && rows == Gather(Columns(paths, past.held, id))
    {
      Ensure(program);
      RowsFreshIff(State(), id);
      ListedAt(State(), id);
      SettledPaths(State());
      hide Formed, Settled, HeldAll, FreshRows, EnsuredHeld;
      used := used + {id};
      rows := RowsFor(merged.value, id);
    }

    /** `ReferencesBatch`: the lists of several symbols, each recorded as used. */
    method ReferencesBatch(program: Scans, ids: set<SymbolID>) returns (lists: map<SymbolID, seq<Location>>)
      requires Valid() && program == past.truth
      modifies this
      ensures Valid() && Settled(State()) && past.truth == old(past.truth) && past.base == old(past.base)
      ensures past.held == EnsuredHeld(old(State())) && past.moved == old(past.moved) && deltaExact == old(deltaExact)
      ensures old(Settled(State())) ==> State() == old(State())
      ensures used == old(used) + ids
      ensures forall id :: id in lists <==> id in ids
      ensures forall id :: id in lists ==> lists[id] == ListAt(paths, past.held, id)
    {
      Ensure(program);
      SettledPaths(State());
      hide Formed, Settled, EnsuredHeld, StrictlyOrdered, ListAt, Located;
      lists := AnswerAll(ids, merged.value, paths, State());
      used := used + ids;
    }

    static method AnswerAll(ids: set<SymbolID>, rows: Merged, paths: seq<Path>, ghost s: IndexState) returns (lists: map<SymbolID, seq<Location>>)
      requires Formed(s) && s.merged == Some(rows) && s.paths == paths
      ensures forall id :: id in lists <==> id in ids
      ensures forall id :: id in lists ==> lists[id] == ListAt(paths, s.held, id)
    {
      hide *;
      lists := map[];
      var pending := ids;
      while pending != {}
        invariant pending <= ids
        invariant forall id :: id in lists <==> id in ids && id !in pending
        invariant forall id :: id in lists ==> lists[id] == ListAt(paths, s.held, id)
        decreases |pending|
      {
        var id :| id in pending;
        pending := pending - {id};
        AnswerAt(s, id);
        lists := lists[id := Located(paths, RowsFor(rows, id))];
      }
    }

    /** `releaseAnalysisState`: rows no fact used are dropped. The delta is unaffected; a symbol keeps what
    every path held of it exactly if it was used since the last release. */
    method ReleaseAnalysisState()
      requires Valid()
      modifies this
      ensures Valid() && past.truth == old(past.truth) && past.base == old(past.base)
      ensures deltaExact == old(deltaExact) && changedSymbols == old(changedSymbols) && files == old(files)
      ensures used == {} && refreshPaths == old(refreshPaths) && merged.Some? == old(merged.Some?)
      ensures paths == old(paths) && past.moved == old(past.moved)
      ensures past.held == if merged.Some? then ReleasedHeldOf(old(past.held), old(used)) else old(past.held)
    {
      hide Formed, Mentions, Restricted, Settled;
      if merged.Some? {
        ghost var before := State();
        merged := Some(map id | id in merged.value && id in used :: merged.value[id]);
        past := past.(held := ReleasedHeldOf(past.held, used));
        Released(before, used, State());
      }
      used := {};
    }
  }
}
