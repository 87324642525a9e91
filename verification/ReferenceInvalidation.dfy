/** Invalidating some files of the reference index keeps it formed (internal/typefacts/tsgo/references.go:17-103, 198-348). */
module ReferenceInvalidations {
  import opened Order
  import opened SortedRows
  import opened Facts
  import opened ReferenceRows
  import opened ReferenceStates

  lemma BeforeInvalidate(s: IndexState)
    requires Formed(s)
    ensures s.files.Keys <= s.truth.Keys
    ensures forall path :: path in s.files ==> s.files[path].durable == s.truth[path].durable && s.files[path].refs.Keys == s.truth[path].refs.Keys
    ensures s.merged.Some? ==> TableFormed(s)
    ensures Settled(s) <==> s.merged.Some? && s.refreshPaths == {}
    ensures s.merged.Some? && !(s.deltaExact && s.refreshPaths != {}) ==> Settled(s)
  {
  }

  ghost predicate Kept(s: IndexState, retained: set<Path>, path: Path) {
    path in s.files && path in retained && s.files[path].durable
  }

  /** Part of the files has been looked at. */
  ghost predicate Evicting(
      s: IndexState, retained: set<Path>, hadExactBase: bool,
      changed: set<SymbolID>, start: set<SymbolID>, pending: set<Path>, evicted: set<Path>, files: Scans) {
    && pending <= s.files.Keys && evicted <= s.files.Keys && pending !! evicted
    && (forall path :: path in s.files && path !in pending ==> (path in evicted <==> !Kept(s, retained, path)))
    && files == s.files - evicted
    && (forall id :: id in changed <==> id in start || (hadExactBase && Mentions(s.files, evicted, id)))
  }

  /** The files an invalidation keeps: retained by the update, and durable. */
  function KeptFiles(files: Scans, retained: set<Path>): set<Path> {
    set path | path in files && path in retained && files[path].durable
  }

  lemma EvictedWhich(
      s: IndexState, retained: set<Path>, hadExactBase: bool, changed: set<SymbolID>, start: set<SymbolID>, evicted: set<Path>, files: Scans)
    requires Evicting(s, retained, hadExactBase, changed, start, {}, evicted, files)
    ensures files.Keys == KeptFiles(s.files, retained) && evicted == s.files.Keys - files.Keys
  {
    hide Mentions;
  }

  ghost predicate EvictedRows(s: IndexState, evicted: set<Path>, merged: Merged, held: map<Path, Refs>) {
    held == s.held - evicted && Listed(merged, s.paths, held)
  }

  lemma EvictStart(s: IndexState, retained: set<Path>, hadExactBase: bool, start: set<SymbolID>)
    ensures Evicting(s, retained, hadExactBase, start, start, s.files.Keys, {}, s.files)
    ensures s.merged.Some? && TableFormed(s) ==> EvictedRows(s, {}, s.merged.value, s.held - {})
  {
    hide Listed;
    assert s.held - {} == s.held && s.files - {} == s.files;
    forall id ensures !Mentions(s.files, {}, id) { MentionsNone(s.files, id); }
    hide Mentions;
  }

  lemma HeldHas(s: IndexState, path: Path)
    requires s.merged.Some? && TableFormed(s) && path in s.files && s.files.Keys <= s.truth.Keys
    ensures path in SetOf(s.paths) && path in s.held && s.held[path].Keys <= s.files[path].refs.Keys
  {
  }

  lemma InPending(
      s: IndexState, retained: set<Path>, hadExactBase: bool,
      changed: set<SymbolID>, start: set<SymbolID>, pending: set<Path>, evicted: set<Path>, files: Scans, path: Path)
    requires Evicting(s, retained, hadExactBase, changed, start, pending, evicted, files) && path in pending
    ensures path in files && path in s.files && files[path] == s.files[path] && path !in evicted
    ensures pending == (pending - {path}) + {path}
    ensures path in retained && files[path].durable <==> Kept(s, retained, path)
  {
  }

  lemma KeepStep(
      s: IndexState, retained: set<Path>, hadExactBase: bool,
      changed: set<SymbolID>, start: set<SymbolID>, pending: set<Path>, evicted: set<Path>, files: Scans, path: Path)
    requires Evicting(s, retained, hadExactBase, changed, start, pending + {path}, evicted, files) && path !in pending
    requires Kept(s, retained, path)
    ensures Evicting(s, retained, hadExactBase, changed, start, pending, evicted, files)
  {
    hide Mentions;
  }

  lemma EvictStep(
      s: IndexState, retained: set<Path>, hadExactBase: bool,
      changed: set<SymbolID>, start: set<SymbolID>, pending: set<Path>, evicted: set<Path>, files: Scans, path: Path)
    requires Evicting(s, retained, hadExactBase, changed, start, pending + {path}, evicted, files) && path !in pending
    requires path in s.files && !Kept(s, retained, path)
    ensures Evicting(s, retained, hadExactBase, if hadExactBase then changed + s.files[path].refs.Keys else changed,
      start, pending, evicted + {path}, files - {path})
  {
    hide Mentions;
    assert s.files - (evicted + {path}) == files - {path};
    forall id ensures Mentions(s.files, evicted + {path}, id) <==> Mentions(s.files, evicted, id) || id in s.files[path].refs {
      MentionsMore(s.files, evicted, path, id);
    }
  }

  lemma TablePaths(s: IndexState)
    requires s.merged.Some? && TableFormed(s)
    ensures StrictlyOrdered(s.paths) && SetOf(s.paths) == s.truth.Keys
  {
  }

  /** Every symbol of `ids` but the pending ones has lost the path. */
  ghost predicate FilteredIn(rows: Merged, next: Merged, ids: set<SymbolID>, pending: set<SymbolID>, k: nat) {
    pending <= ids
    && forall id :: RowsFor(next, id) == if id in ids && id !in pending then WithoutPath(RowsFor(rows, id), k) else RowsFor(rows, id)
  }

  lemma FilterStart(rows: Merged, ids: set<SymbolID>, k: nat)
    ensures FilteredIn(rows, rows, ids, ids, k)
  {
    hide WithoutPath;
  }

  lemma FilterStep(rows: Merged, next: Merged, ids: set<SymbolID>, pending: set<SymbolID>, k: nat, id: SymbolID)
    requires FilteredIn(rows, next, ids, pending, k) && id in pending
    ensures var kept := WithoutPath(RowsFor(next, id), k);
      FilteredIn(rows, if kept == [] then next - {id} else next[id := kept], ids, pending - {id}, k)
  {
    hide WithoutPath;
  }

  lemma FilterEnd(rows: Merged, next: Merged, ids: set<SymbolID>, k: nat)
    requires FilteredIn(rows, next, ids, {}, k)
    ensures forall id :: RowsFor(next, id) == if id in ids then WithoutPath(RowsFor(rows, id), k) else RowsFor(rows, id)
  {
    hide WithoutPath, RowsFor;
  }

  /** Every symbol of `refs` but the pending ones has its spans appended. */
  ghost predicate AppendedIn(rows: Merged, next: Merged, refs: Refs, pending: set<SymbolID>, k: nat) {
    pending <= refs.Keys
    && forall id :: RowsFor(next, id) == if id in refs && id !in pending then RowsFor(rows, id) + Tag(k, refs[id]) else RowsFor(rows, id)
  }

  lemma AppendStart(rows: Merged, refs: Refs, k: nat)
    ensures AppendedIn(rows, rows, refs, refs.Keys, k)
  {
    hide Tag;
  }

  lemma AppendStep(rows: Merged, next: Merged, refs: Refs, pending: set<SymbolID>, k: nat, id: SymbolID)
    requires AppendedIn(rows, next, refs, pending, k) && id in pending
    ensures id in refs && AppendedIn(rows, next[id := RowsFor(next, id) + Tag(k, refs[id])], refs, pending - {id}, k)
  {
    hide Tag;
  }

  lemma AppendEnd(rows: Merged, next: Merged, refs: Refs, k: nat)
    requires AppendedIn(rows, next, refs, {}, k)
    ensures forall id :: RowsFor(next, id) == if id in refs then RowsFor(rows, id) + Tag(k, refs[id]) else RowsFor(rows, id)
  {
    hide Tag, RowsFor;
  }

  lemma RowsEvicted(s: IndexState, evicted: set<Path>, rows: Merged, next: Merged, path: Path, ids: set<SymbolID>, k: nat)
    requires s.merged.Some? && TableFormed(s) && k < |s.paths| && s.paths[k] == path
    requires EvictedRows(s, evicted, rows, s.held - evicted)
    requires path in s.held && s.held[path].Keys <= ids
    requires forall id :: RowsFor(next, id) == if id in ids then WithoutPath(RowsFor(rows, id), k) else RowsFor(rows, id)
    ensures EvictedRows(s, evicted + {path}, next, s.held - (evicted + {path}))
  {
    hide Columns, Gather, WithoutPath, StrictlyOrdered, RowsFor;
    var held := s.held - evicted;
    assert s.held - (evicted + {path}) == held - {path};
    forall id ensures RowsFor(next, id) == Gather(Columns(s.paths, held - {path}, id)) {
      if id in ids {
        EvictRows(rows, s.paths, held, k, id);
      } else {
        assert HeldAt(held, path, id) == [];
        EvictNothing(s.paths, held, k, id);
      }
    }
  }

  lemma MentionsUnion(scans: Scans, a: set<Path>, b: set<Path>, id: SymbolID)
    ensures Mentions(scans, a + b, id) <==> Mentions(scans, a, id) || Mentions(scans, b, id)
  {
  }

  /** The files forget spans, never symbols. */
  lemma MentionsFiles(s: IndexState, evicted: set<Path>, id: SymbolID)
    requires FilesFormed(s) && evicted <= s.files.Keys
    ensures Mentions(s.files, evicted, id) <==> Mentions(s.truth, evicted, id)
  {
    if Mentions(s.truth, evicted, id) {
      var path :| path in evicted && path in s.truth && id in s.truth[path].refs;
      assert id in s.files[path].refs;
    }
  }

  lemma MentionsSame(a: Scans, b: Scans, paths: set<Path>, id: SymbolID)
    requires forall path :: path in paths ==> path in a && path in b && a[path] == b[path]
    ensures Mentions(a, paths, id) <==> Mentions(b, paths, id)
  {
  }

  /** What any invalidation leaves of the files and of the delta. */
  lemma EvictedFiles(
      s: IndexState, retained: set<Path>, program: Scans, hadExactBase: bool, changed: set<SymbolID>, start: set<SymbolID>, evicted: set<Path>, next: IndexState)
    requires FilesKept(s) && Stable(s.truth, program, retained) && Evicting(s, retained, hadExactBase, changed, start, {}, evicted, next.files)
    requires next.truth == program
    ensures FilesKept(next)
    ensures forall path :: path in s.files && path !in evicted ==> path in s.truth && path in program && program[path] == s.truth[path]
  {
    hide Mentions, ScansFormed;
    forall path | path in s.files && path !in evicted ensures program[path] == s.truth[path] {
      assert Kept(s, retained, path);
    }
    hide Emptied;
  }

  lemma EvictedDelta(
      s: IndexState, retained: set<Path>, program: Scans, composing: bool, hadExactBase: bool, changed: set<SymbolID>, evicted: set<Path>,
      next: IndexState)
    requires Formed(s) && program.Keys == s.truth.Keys
    requires forall path :: path in s.files && path !in evicted ==> path in s.truth && path in program && program[path] == s.truth[path]
    requires composing == (s.deltaExact && (s.merged.None? || s.refreshPaths != {})) && hadExactBase == (s.merged.Some? || composing)
    requires Evicting(s, retained, hadExactBase, changed, if composing then s.changedSymbols else {}, {}, evicted, next.files)
    requires next.truth == program && next.changedSymbols == changed && next.deltaExact == hadExactBase
    requires next.base == if s.merged.Some? && s.refreshPaths == {} then s.truth else s.base
    requires next.moved == if composing then s.moved + evicted else evicted
    requires !Settled(next) || next.moved == {}
    ensures DeltaFormed(next)
  {
    hide Mentions, RowsFormed, Emptied;
    if hadExactBase {
      EvictedChanged(s, composing, changed, evicted);
      forall id ensures !Mentions(program, {}, id) { MentionsNone(program, id); }
    }
  }

  /** The changed symbols of an invalidation, measured from its base. */
  lemma EvictedChanged(s: IndexState, composing: bool, changed: set<SymbolID>, evicted: set<Path>)
    requires Formed(s) && evicted <= s.files.Keys
    requires composing == (s.deltaExact && (s.merged.None? || s.refreshPaths != {})) && (s.merged.Some? || composing)
    requires forall id :: id in changed <==> id in (if composing then s.changedSymbols else {}) || Mentions(s.files, evicted, id)
    ensures var base, moved := if Settled(s) then s.truth else s.base, if composing then s.moved + evicted else evicted;
      base.Keys == s.truth.Keys && forall id :: id in changed <==> Mentions(base, moved, id)
    ensures !composing ==> Settled(s)
  {
    hide Mentions, ScansFormed, TableFormed, Emptied;
    forall id
      ensures Mentions(s.files, evicted, id) <==> Mentions(s.truth, evicted, id)
      ensures composing ==> (Mentions(s.base, s.moved + evicted, id) <==> Mentions(s.base, s.moved, id) || Mentions(s.truth, evicted, id))
    {
      MentionsFiles(s, evicted, id);
      if composing {
        MentionsUnion(s.base, s.moved, evicted, id);
        MentionsSame(s.base, s.truth, evicted, id);
      }
    }
  }

  /** After an incremental invalidation: the evicted files wait to be rescanned. */
  function PatchedState(s: IndexState, program: Scans, entries: Scans, rows: Merged, changed: set<SymbolID>, evicted: set<Path>): IndexState {
    IndexState(Some(rows), s.paths, evicted, changed, true, entries, program, s.truth, evicted, s.held - evicted)
  }

  function DroppedHistory(s: IndexState, program: Scans, composing: bool, entries: Scans, evicted: set<Path>): History {
    History(program, if s.merged.Some? && s.refreshPaths == {} then s.truth else s.base,
      if composing then s.moved + evicted else evicted, map[])
  }

  /** After a broad one: the merged rows are gone. */
  function DroppedState(s: IndexState, program: Scans, composing: bool, entries: Scans, changed: set<SymbolID>, evicted: set<Path>): IndexState {
    var past := DroppedHistory(s, program, composing, entries, evicted);
    IndexState(None, [], {}, changed, s.merged.Some? || composing, entries, past.truth, past.base, past.moved, past.held)
  }

  lemma DroppedParts(s: IndexState, program: Scans, composing: bool, entries: Scans, changed: set<SymbolID>, evicted: set<Path>)
    ensures var past := DroppedHistory(s, program, composing, entries, evicted);
      && past.truth == program && past.held == map[] && past.base == (if Settled(s) then s.truth else s.base)
      && past.moved == evicted + (if composing then s.moved else {})
      && DroppedState(s, program, composing, entries, changed, evicted)
        == IndexState(None, [], {}, changed, s.merged.Some? || composing, entries, past.truth, past.base, past.moved, past.held)
  {
  }

  lemma EvictedIncrementally(
      s: IndexState, retained: set<Path>, program: Scans, entries: Scans, rows: Merged, changed: set<SymbolID>, evicted: set<Path>)
    requires Formed(s) && Settled(s) && Stable(s.truth, program, retained)
    requires Evicting(s, retained, true, changed, {}, {}, evicted, entries)
    requires EvictedRows(s, evicted, rows, s.held - evicted)
    ensures Formed(PatchedState(s, program, entries, rows, changed, evicted))
  {
    var next := PatchedState(s, program, entries, rows, changed, evicted);
    hide DeltaFormed, Mentions, Listed, StrictlyOrdered, HeldStrict, HeldWithin, HeldWhole, FilesKept, ScansFormed;
    EvictedFiles(s, retained, program, true, changed, {}, evicted, next);
    EvictedDelta(s, retained, program, false, true, changed, evicted, next);
    HeldEvicted(s, program, evicted, entries);
  }

  lemma HeldEvicted(s: IndexState, program: Scans, evicted: set<Path>, entries: Scans)
    requires HeldStrict(s.held) && HeldWithin(s.held, s.files) && entries == s.files - evicted
    requires forall path :: path in s.files && path !in evicted ==> path in s.truth && path in program && program[path] == s.truth[path]
    ensures HeldStrict(s.held - evicted) && HeldWithin(s.held - evicted, entries)
    ensures HeldWhole(s.held, s.truth) ==> HeldWhole(s.held - evicted, program)
  {
    hide StrictSpans;
  }

  lemma EvictedBroadly(
      s: IndexState, retained: set<Path>, program: Scans, composing: bool, entries: Scans, changed: set<SymbolID>, evicted: set<Path>)
    requires Formed(s) && Stable(s.truth, program, retained)
    requires composing == (s.deltaExact && (s.merged.None? || s.refreshPaths != {}))
    requires Evicting(s, retained, s.merged.Some? || composing, changed, if composing then s.changedSymbols else {}, {}, evicted, entries)
    ensures Formed(DroppedState(s, program, composing, entries, changed, evicted))
  {
    var next := DroppedState(s, program, composing, entries, changed, evicted);
    hide DeltaFormed, Mentions, TableFormed, FilesKept, ScansFormed, Evicting;
    EvictedFiles(s, retained, program, s.merged.Some? || composing, changed, if composing then s.changedSymbols else {}, evicted, next);
    EvictedDelta(s, retained, program, composing, s.merged.Some? || composing, changed, evicted, next);
  }
}
