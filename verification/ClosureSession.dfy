/** The symbol closure across generations: the producer's reference index and the client's retained symbols,
joined by the requests the client sends (crates/typefacts/src/session.rs:1000-1440,
internal/typefacts/session.go:284-455). */
module ClosureSessions {
  import opened Order
  import opened SortedRows
  import opened Facts
  import opened PackedIndexes
  import opened RetainedSymbols
  import opened SymbolPrograms
  import opened ClientClosures
  import opened ClientPatches
  import opened ClientSymbols
  import opened ClientSymbolTables
  import opened ReferenceAnswers
  import opened ReferenceReleases
  import R = ReferenceRows
  import S = ReferenceStates
  import I = ReferenceIndexes
  import opened ReferenceInvalidations

  /** A program's lists are what scanning its files finds. */
  ghost predicate ListsAre(program: Program, scans: R.Scans) {
    && ListsOrdered(program)
    && (forall paths, id :: StrictlyOrdered(paths) && SetOf(paths) == scans.Keys && AliasOf(program, id) == "" ==>
          FactOf(program, id).references == TrueList(paths, scans, id))
  }

  /** The index and the table speak of the same generation: a settled index of the one last closed,
  an unsettled one measures its delta from there, and every affected path is to be rescanned. */
  ghost predicate Anchored(s: S.IndexState, closed: R.Scans, affected: set<Path>) {
    if S.Settled(s) then s.truth == closed && affected !! s.truth.Keys
    else s.deltaExact ==> s.base == closed && forall path :: path in affected && path in s.truth ==> path in s.moved
  }

  /** What each path holds when the client reads whole lists: an analyze that prefetched the changes has
  released the rows of every other symbol by then. */
  ghost function ReadHeld(s: S.IndexState, used: set<SymbolID>, ids: set<SymbolID>, prefetch: bool): map<Path, R.Refs> {
    if prefetch then ReleasedHeldOf(S.EnsuredHeld(s), used + ids) else S.EnsuredHeld(s)
  }

  /** Where no affected file lies, the lists due stay as they were. */
  ghost predicate QuietOutside(before: Program, reached: set<SymbolID>, full: set<SymbolID>, closed: R.Scans, scans: R.Scans, affected: set<Path>) {
    forall path, id :: path in closed && path in scans && path !in affected && Eligible(before, reached, full, id) ==>
      R.SpansAt(closed[path].refs, id) == R.SpansAt(scans[path].refs, id)
  }

  /** The producer's answer for every symbol at once. */
  function Answers(rows: R.Merged, paths: seq<Path>): References {
    map id | id in rows :: Located(paths, rows[id])
  }

  lemma AnswersAre(s: S.IndexState, reply: Reply)
    requires S.Formed(s) && s.merged.Some? && reply.lists == Answers(s.merged.value, s.paths) && StrictlyOrdered(s.paths)
    ensures forall id :: ListOf(reply, id) == ListAt(s.paths, s.held, id)
    ensures RepliesOrdered(reply)
  {
    hide S.Formed, ListAt, Located, StrictlyOrdered, PathOrdered;
    forall id ensures ListOf(reply, id) == ListAt(s.paths, s.held, id) && PathOrdered(ListAt(s.paths, s.held, id)) {
      AnswerAt(s, id);
      ListOrdered(s.paths, s.held, id);
      assert Located(s.paths, []) == [];
    }
  }

  // --- what the prefetched evidence is worth ---

  function AtPaths(list: seq<Location>, paths: set<Path>): seq<Location> {
    if list == [] then []
    else
      var front, last := list[..|list| - 1], list[|list| - 1];
      if last.path in paths then AtPaths(front, paths) + [last] else AtPaths(front, paths)
  }

  lemma {:induction false} AtPathsAt(list: seq<Location>, paths: set<Path>, path: Path)
    ensures LocationsAt(AtPaths(list, paths), path) == if path in paths then LocationsAt(list, path) else []
  {
    if list != [] {
      var front, last := list[..|list| - 1], list[|list| - 1];
      AtPathsAt(front, paths, path);
      if last.path in paths {
        hide AtPaths;
        LocationsAtConcat(AtPaths(front, paths), [last], path);
        assert [last][..0] == [];
      }
    }
  }

  function EvidenceAt(lists: References, affected: set<Path>): References {
    map id | id in lists :: AtPaths(lists[id], affected)
  }

  /** In the generation after the one closed, the changes answered name every symbol whose spans moved, and each
  affected path has just been rescanned. */
  ghost predicate Rescanned(held: map<Path, R.Refs>, truth: R.Scans, affected: set<Path>) {
    forall path :: path in affected && path in truth ==> path in held && held[path] == truth[path].refs
  }

  lemma EnsuredRescans(s: S.IndexState, closed: R.Scans, affected: set<Path>)
    requires S.Formed(s) && Anchored(s, closed, affected)
    requires s.deltaExact
    ensures Rescanned(S.EnsuredHeld(s), s.truth, affected)
  {
    hide S.Mentions, S.TableFormed, S.ScansFormed;
  }

  /** The evidence of an affected path is the program's list there. */
  lemma EvidenceTrue(program: Program, truth: R.Scans, paths: seq<Path>, held: map<Path, R.Refs>, affected: set<Path>, id: SymbolID, path: Path)
    requires ListsAre(program, truth) && AliasOf(program, id) == "" && path in affected
    requires StrictlyOrdered(paths) && SetOf(paths) == truth.Keys && Rescanned(held, truth, affected)
    ensures LocationsAt(AtPaths(ListAt(paths, held, id), affected), path) == LocationsAt(FactOf(program, id).references, path)
  {
    hide ListAt, TrueList, LocationsAt, StrictlyOrdered, Placed, FactOf;
    AtPathsAt(ListAt(paths, held, id), affected, path);
    ListAtPath(paths, held, id, path);
    TrueListIs(paths, truth, id);
    ListAtPath(paths, S.AllRefs(truth), id, path);
  }

  /** Two programs whose scans agree on a symbol at a path list the same there. */
  lemma SameAtPath(before: Program, closed: R.Scans, program: Program, truth: R.Scans, paths: seq<Path>, id: SymbolID, path: Path)
    requires ListsAre(before, closed) && ListsAre(program, truth) && AliasOf(before, id) == "" && AliasOf(program, id) == ""
    requires StrictlyOrdered(paths) && SetOf(paths) == truth.Keys == closed.Keys
    requires path in truth ==> R.SpansAt(closed[path].refs, id) == R.SpansAt(truth[path].refs, id)
    ensures LocationsAt(FactOf(before, id).references, path) == LocationsAt(FactOf(program, id).references, path)
  {
    hide ListAt, TrueList, LocationsAt, StrictlyOrdered, Placed, FactOf, R.SpansAt;
    TrueListIs(paths, closed, id);
    TrueListIs(paths, truth, id);
    ListAtPath(paths, S.AllRefs(closed), id, path);
    ListAtPath(paths, S.AllRefs(truth), id, path);
  }

  lemma SameList(before: Program, closed: R.Scans, program: Program, truth: R.Scans, paths: seq<Path>, id: SymbolID)
    requires ListsAre(before, closed) && ListsAre(program, truth) && AliasOf(before, id) == "" && AliasOf(program, id) == ""
    requires StrictlyOrdered(paths) && SetOf(paths) == truth.Keys == closed.Keys
    requires forall path :: path in truth ==> R.SpansAt(closed[path].refs, id) == R.SpansAt(truth[path].refs, id)
    ensures FactOf(before, id).references == FactOf(program, id).references
  {
    hide StrictlyOrdered, FactOf, R.SpansAt, R.Gather;
    TrueListIs(paths, closed, id);
    TrueListIs(paths, truth, id);
    forall path | path in SetOf(paths) ensures R.HeldAt(S.AllRefs(closed), path, id) == R.HeldAt(S.AllRefs(truth), path, id) {
      AtBoth(closed, path, id);
      AtBoth(truth, path, id);
    }
    hide R.HeldAt;
    assert R.Columns(paths, S.AllRefs(closed), id) == R.Columns(paths, S.AllRefs(truth), id);
  }

  lemma AtBoth(truth: R.Scans, path: Path, id: SymbolID)
    ensures path in truth ==> R.HeldAt(S.AllRefs(truth), path, id) == R.SpansAt(truth[path].refs, id)
  {
  }

  /** The changes name every symbol whose spans moved since the last closure. */
  ghost predicate MovesNamed(closed: R.Scans, truth: R.Scans, ids: set<SymbolID>) {
    && closed.Keys == truth.Keys
    && (forall path, id :: path in truth && R.SpansAt(closed[path].refs, id) != R.SpansAt(truth[path].refs, id) ==> id in ids)
  }

  lemma AnchoredMoves(s: S.IndexState, closed: R.Scans, affected: set<Path>, ids: set<SymbolID>)
    requires Anchored(s, closed, affected) && s.deltaExact && MovesNamed(s.base, s.truth, ids)
    ensures MovesNamed(closed, s.truth, ids)
  {
    hide R.SpansAt;
  }

  /** An exact delta names every move since some earlier closure exactly when it names those made between that
  closure and its own base: what an analyze abandoned in between had been told. */
  lemma NamedSinceIff(s: S.IndexState, closed: R.Scans)
    requires S.Formed(s) && S.Settled(s) && s.deltaExact && closed.Keys == s.truth.Keys == s.base.Keys
    ensures MovesNamed(closed, s.truth, s.changedSymbols) <==> MovesNamed(closed, s.base, s.changedSymbols)
  {
    hide S.Formed, S.Settled, R.SpansAt;
    forall path, id | path in s.truth && id !in s.changedSymbols ensures R.SpansAt(s.base[path].refs, id) == R.SpansAt(s.truth[path].refs, id) {
      if R.SpansAt(s.base[path].refs, id) != R.SpansAt(s.truth[path].refs, id) { S.DeltaCovers(s, path, id); }
    }
  }

  lemma TableStillHolds(before: Program, closed: R.Scans, program: Program, truth: R.Scans, paths: seq<Path>,
      reached: set<SymbolID>, full: set<SymbolID>, views: seq<Row<SymbolView>>, reply: Reply)
    requires ListsAre(before, closed) && ListsAre(program, truth) && StrictlyOrdered(paths) && SetOf(paths) == truth.Keys
    requires FreshViews(before, reached, full, views)
    requires reply.exact && reached != {} ==> MovesNamed(closed, truth, reply.ids)
    ensures TableHolds(before, program, reached, full, views, reply)
  {
    hide FreshViews, FactOf, StrictlyOrdered, R.SpansAt;
    forall id | reply.exact && Eligible(before, reached, full, id) && AliasOf(program, id) == "" && id !in reply.ids
      ensures FactOf(program, id).references == FactOf(before, id).references
    {
      SameList(before, closed, program, truth, paths, id);
    }
    hide Eligible, AliasOf;
  }

  lemma OnlyAffected(before: Program, closed: R.Scans, program: Program, truth: R.Scans, paths: seq<Path>, held: map<Path, R.Refs>,
      reached: set<SymbolID>, full: set<SymbolID>, views: seq<Row<SymbolView>>, affected: set<Path>, reply: Reply, evidence: References)
    requires ListsAre(before, closed) && ListsAre(program, truth) && StrictlyOrdered(paths) && SetOf(paths) == truth.Keys
    requires forall id :: id in reached && !InvalidatedBy(views, affected, id) ==> SameFact(program, id, FactOf(before, id))
    requires QuietOutside(before, reached, full, closed, truth, affected)
    requires forall id :: id in evidence ==> id in reply.ids && evidence[id] == AtPaths(ListAt(paths, held, id), affected)
    requires evidence.Keys == {} || reached == {} || (closed.Keys == truth.Keys && Rescanned(held, truth, affected))
    ensures OnlyAffectedMoved(before, program, reached, full, views, affected, reply, evidence)
  {
    hide ListAt, AtPaths, StrictlyOrdered, LocationsAt, FactOf, InvalidatedBy, Rescanned, AliasOf;
    forall id, path | id in evidence && Eligible(before, reached, full, id) && AliasOf(program, id) == "" && path in affected
      ensures LocationsAt(evidence[id], path) == LocationsAt(FactOf(program, id).references, path)
    {
      EvidenceTrue(program, truth, paths, held, affected, id, path);
    }
    forall id, path | id in evidence && Eligible(before, reached, full, id) && AliasOf(program, id) == "" && path !in affected
      ensures LocationsAt(FactOf(before, id).references, path) == LocationsAt(FactOf(program, id).references, path)
    {
      SameAtPath(before, closed, program, truth, paths, id, path);
    }
  }

  /** After a prefetch, a list is read whole only of symbols the delta names or someone used since the last
  release: every other symbol that some file mentions has lost its rows to the prefetch's own release. */
  lemma PrefetchedReadIff(s: S.IndexState, used: set<SymbolID>, ids: set<SymbolID>, id: SymbolID)
    requires S.Formed(s)
    ensures S.HeldAll(ReadHeld(s, used, ids, true), s.truth, id) <==>
      (id in used + ids && S.HeldAll(S.EnsuredHeld(s), s.truth, id)) || forall path :: path in s.truth ==> id !in s.truth[path].refs
  {
    EnsuredMentions(s, id);
    hide S.Formed, S.HeldAll, S.EnsuredHeld;
    ReleasedAll(S.EnsuredHeld(s), s.truth, used + ids, id);
  }

  /** An index that is to be built from nothing, and is not released before the reads, answers every list whole. */
  lemma ColdReads(s: S.IndexState, used: set<SymbolID>, ids: set<SymbolID>, id: SymbolID)
    requires s.merged.None? && S.Whole(s)
    ensures S.HeldAll(ReadHeld(s, used, ids, false), s.truth, id)
  {
  }

  lemma EnsuredMentions(s: S.IndexState, id: SymbolID)
    requires S.Formed(s)
    ensures S.ScansFormed(s.truth)
    ensures forall path :: path in s.truth ==> R.SpansAt(s.truth[path].refs, id) == [] ==> R.HeldAt(S.EnsuredHeld(s), path, id) == []
  {
    if s.merged.Some? { HeldMentions(s, id); }
    hide S.DeltaFormed, S.TableFormed, S.ScansFormed;
    forall path | path in s.truth && R.SpansAt(s.truth[path].refs, id) == [] ensures R.HeldAt(S.EnsuredHeld(s), path, id) == [] {
      if s.merged.Some? { assert R.HeldAt(s.held, path, id) == []; }
    }
  }

  /** Lists read whole are current exactly when the index misses no file's spans of theirs. */
  lemma ReadsWholeIff(program: Program, s: S.IndexState, reply: Reply, read: set<SymbolID>)
    requires ListsAre(program, s.truth) && S.Formed(s) && S.Settled(s)
    requires forall id :: ListOf(reply, id) == ListAt(s.paths, s.held, id)
    requires forall id :: id in read ==> AliasOf(program, id) == ""
    ensures (forall id :: id in read ==> ListOf(reply, id) == FactOf(program, id).references) <==> forall id :: id in read ==> S.HeldAll(s.held, s.truth, id)
  {
    S.SettledPaths(s);
    hide S.Formed, S.Settled, ListAt, TrueList, FactOf, AliasOf, ListOf, S.HeldAll, StrictlyOrdered;
    forall id | id in read ensures ListOf(reply, id) == FactOf(program, id).references <==> S.HeldAll(s.held, s.truth, id) {
      AnswerWholeIff(s, id);
    }
  }

  /** The reply is the index's: its delta, and its rows. */
  ghost predicate ChangesNamed(before: S.IndexState, s: S.IndexState, reply: Reply) {
    && s.merged.Some? && reply.lists == Answers(s.merged.value, s.paths)
    && s.base == before.base && before.deltaExact == reply.exact
    && (reply.exact ==> MovesNamed(s.base, s.truth, reply.ids))
  }

  /** The evidence is what the index answered for the changes before anything was released. */
  ghost predicate EvidenceFrom(before: S.IndexState, s: S.IndexState, reply: Reply, affected: set<Path>, evidence: References) {
    && (evidence.Keys != {} ==> before.deltaExact)
    && (forall id :: id in evidence ==> id in reply.ids && evidence[id] == AtPaths(ListAt(s.paths, S.EnsuredHeld(before), id), affected))
  }

  /** Only symbols declared at an affected path change their facts. */
  ghost predicate OthersHeld(program: Program, closed: Program, reached: set<SymbolID>, views: seq<Row<SymbolView>>, affected: set<Path>) {
    forall id :: id in reached && !InvalidatedBy(views, affected, id) ==> SameFact(program, id, FactOf(closed, id))
  }

  /** What the client may rely on when it closes: its table holds but for what the changes name. */
  lemma ReadyToClose(before: S.IndexState, s: S.IndexState, closed: Program, closedScans: R.Scans, program: Program,
      reached: set<SymbolID>, full: set<SymbolID>, views: seq<Row<SymbolView>>, affected: set<Path>, reply: Reply)
    requires S.Formed(s) && S.Settled(s) && s.truth == before.truth && ChangesNamed(before, s, reply)
    requires ListsAre(closed, closedScans) && ListsAre(program, s.truth) && FreshViews(closed, reached, full, views)
    requires reached == {} || Anchored(before, closedScans, affected)
    ensures TableHolds(closed, program, reached, full, views, reply) && RepliesOrdered(reply) && ListsOrdered(program)
    ensures forall id :: ListOf(reply, id) == ListAt(s.paths, s.held, id)
    ensures StrictlyOrdered(s.paths) && SetOf(s.paths) == s.truth.Keys
    ensures reply.exact && reached != {} ==> closedScans.Keys == s.truth.Keys
  {
    S.SettledPaths(s);
    AnswersAre(s, reply);
    hide ListsOrdered, S.Formed, S.Settled, Answers, ListAt, FreshViews, ListsAre, StrictlyOrdered, RepliesOrdered, TableHolds, Anchored, R.SpansAt;
    if reply.exact && reached != {} { AnchoredMoves(before, closedScans, affected, reply.ids); }
    TableStillHolds(closed, closedScans, program, s.truth, s.paths, reached, full, views, reply);
  }

  lemma SettledAnchored(s: S.IndexState)
    ensures S.Settled(s) ==> Anchored(s, s.truth, {})
  {
  }

  /** With the seeds unchanged, the prefetched evidence is worth the lists at the affected paths. */
  lemma ReadyToPatch(before: S.IndexState, s: S.IndexState, closed: Program, closedScans: R.Scans, program: Program,
      reached: set<SymbolID>, full: set<SymbolID>, views: seq<Row<SymbolView>>, affected: set<Path>, reply: Reply, evidence: References)
    requires S.Formed(before) && ListsAre(closed, closedScans) && ListsAre(program, before.truth)
    requires StrictlyOrdered(s.paths) && SetOf(s.paths) == s.truth.Keys == before.truth.Keys && ChangesNamed(before, s, reply)
    requires reached == {} || Anchored(before, closedScans, affected)
    requires reply.exact && reached != {} ==> closedScans.Keys == before.truth.Keys
    requires EvidenceFrom(before, s, reply, affected, evidence)
    requires OthersHeld(program, closed, reached, views, affected)
    requires QuietOutside(closed, reached, full, closedScans, before.truth, affected)
    ensures OnlyAffectedMoved(closed, program, reached, full, views, affected, reply, evidence)
  {
    hide S.Formed, ListAt, AtPaths, ListsAre, StrictlyOrdered, Anchored, QuietOutside, Rescanned, OnlyAffectedMoved, InvalidatedBy, S.EnsuredHeld, FactOf;
    if evidence.Keys != {} && reached != {} { EnsuredRescans(before, closedScans, affected); }
    OnlyAffected(closed, closedScans, program, before.truth, s.paths, S.EnsuredHeld(before), reached, full, views, affected, reply, evidence);
  }

  /** A stable patch leaves nothing to read, since its evidence covers every change; otherwise lists are read of symbols that are no alias. */
  lemma ReadsAre(patched: bool, program: Program, tier: set<SymbolID>, reached: set<SymbolID>, full: set<SymbolID>, views: seq<Row<SymbolView>>,
      reply: Reply, evidence: References, read: set<SymbolID>)
    requires forall id :: id in tier <==> Eligible(program, reached, full, id)
    requires patched ==> evidence.Keys == reply.ids && forall id :: id in read <==> Unreported(program, tier, reply, evidence, id)
    requires !patched ==> forall id :: id in read <==> Eligible(program, reached, full, id) && Queried(views, reply, id)
    ensures patched ==> read == {}
    ensures forall id :: id in read ==> AliasOf(program, id) == ""
  {
    hide AliasOf, Queried;
  }

  lemma NothingClosed(program: Program)
    ensures FreshViews(program, {}, {}, []) && ValidSymbols(PackedIndex([], 0)) && IndexOK([], map[])
  {
    FindEmpty<SymbolView>();
  }

  /** What an invalidation does to the state. */
  ghost predicate Invalidated(before: S.IndexState, next: S.IndexState, scans: R.Scans, retained: set<Path>) {
    var evicted := before.files.Keys - next.files.Keys;
    && next.truth == scans && next.deltaExact == (before.merged.Some? || before.deltaExact)
    && next.base == (if S.Settled(before) then before.truth else before.base)
    && next.files.Keys == KeptFiles(before.files, retained)
    && next.moved == evicted + (if !S.Settled(before) && before.deltaExact then before.moved else {})
    && next.refreshPaths == (if next.merged.Some? then evicted else {})
    && (next.merged.Some? ==> before.merged.Some? && !(before.deltaExact && before.refreshPaths != {}))
  }

  lemma StaysAnchored(before: S.IndexState, next: S.IndexState, scans: R.Scans, closed: R.Scans, held: set<Path>, affected: set<Path>, retained: set<Path>)
    requires S.Formed(before) && Invalidated(before, next, scans, retained) && S.Stable(before.truth, scans, retained)
    requires Anchored(before, closed, held) && affected !! retained
    ensures Anchored(next, closed, held + affected)
  {
    hide S.Mentions, S.TableFormed, S.ScansFormed;
    forall path | path in affected && path in before.files ensures path in before.files.Keys - next.files.Keys {
      assert path !in KeptFiles(before.files, retained);
    }
    if S.Settled(next) { SettledAgain(before, next, scans, affected, retained); }
  }

  /** An invalidation that evicts nothing from a settled index changes nothing. */
  lemma SettledAgain(before: S.IndexState, next: S.IndexState, scans: R.Scans, affected: set<Path>, retained: set<Path>)
    requires S.Formed(before) && Invalidated(before, next, scans, retained) && S.Stable(before.truth, scans, retained)
    requires S.Settled(next) && affected !! retained
    ensures S.Settled(before) && scans == before.truth && affected !! scans.Keys
  {
    SettledBefore(before, next, scans, retained);
    SettledKept(before);
    hide S.Formed, S.Settled, Invalidated, S.Stable;
    forall path | path in before.truth ensures path in retained && before.truth[path].durable {
      assert path in before.files && path in KeptFiles(before.files, retained);
    }
    AllRetained(before.truth, scans, affected, retained);
  }

  lemma AllRetained(truth: R.Scans, scans: R.Scans, affected: set<Path>, retained: set<Path>)
    requires S.Stable(truth, scans, retained) && affected !! retained
    requires forall path :: path in truth ==> path in retained && truth[path].durable
    ensures scans == truth && affected !! scans.Keys
  {
    hide S.ScansFormed;
  }

  lemma SettledBefore(before: S.IndexState, next: S.IndexState, scans: R.Scans, retained: set<Path>)
    requires S.Formed(before) && Invalidated(before, next, scans, retained) && S.Settled(next)
    ensures S.Settled(before) && KeptFiles(before.files, retained) == before.files.Keys
  {
    hide S.FilesFormed, S.DeltaFormed, S.TableFormed, S.ScansFormed;
    var evicted := before.files.Keys - next.files.Keys;
    assert evicted == {};
    assert forall path :: path in before.files.Keys ==> path in evicted || path in next.files.Keys;
  }

  lemma SettledKept(s: S.IndexState)
    requires S.Formed(s) && S.Settled(s)
    ensures forall path :: path in s.truth ==> path in s.files && s.files[path].durable == s.truth[path].durable
  {
    hide S.DeltaFormed, S.RowsFormed, S.Emptied;
  }

  class ClosureSession {
    const index: I.ReferenceIndex
    const table: SymbolTable
    /** The program last closed, its scans, and what its closure reached. */
    ghost var closed: Program
    ghost var closedScans: R.Scans
    ghost var reached: set<SymbolID>
    ghost var full: set<SymbolID>

    ghost predicate Valid()
      reads this, index, table
    {
      && index.Valid() && ValidSymbols(table.symbols) && IndexOK(Viewed(Rows(table.symbols)), table.symbolsByPath)
      && (forall id :: id in table.referenceTier <==> Eligible(closed, reached, full, id))
      && ListsAre(closed, closedScans)
    }

    ghost predicate InStep()
      reads this, index, table
    {
      reached == {} || Anchored(index.State(), closedScans, table.affectedPaths)
    }

    /** The client's symbols are a from-scratch closure of the program last closed. */
    ghost predicate Current()
      reads this, table
    {
      FreshViews(closed, reached, full, Viewed(Rows(table.symbols)))
    }

    constructor (ghost program: R.Scans, ghost facts: Program)
      requires S.ScansFormed(program) && ListsAre(facts, program)
      ensures Valid() && InStep() && Current() && index.past.truth == program && fresh(index) && fresh(table)
      ensures index.merged.None? && S.Whole(index.State()) && !index.deltaExact && reached == {} && table.affectedPaths == {}
    {
      index := new I.ReferenceIndex(program);
      table := new SymbolTable();
      closed, closedScans, reached, full := facts, program, {}, {};
      new;
      NothingClosed(facts);
    }

    /** An update: the index is told which files to keep, the client which are affected. */
    method Update(ghost scans: R.Scans, count: nat, retained: set<Path>, affected: set<Path>)
      requires Valid() && S.Stable(index.past.truth, scans, retained) && affected !! retained
      modifies index, table`affectedPaths
      ensures Valid() && index.past.truth == scans
      ensures old(InStep()) ==> InStep()
      ensures Current() == old(Current())
    {
      ghost var before := index.State();
      hide S.Formed, S.Stable, S.Settled, KeptFiles, Anchored, ListsAre, ValidSymbols, IndexOK, Rows, Viewed, FreshViews, Eligible;
      index.Invalidate(scans, count, retained);
      if reached != {} && Anchored(before, closedScans, table.affectedPaths) {
        StaysAnchored(before, index.State(), scans, closedScans, table.affectedPaths, affected, retained);
      }
      table.affectedPaths := table.affectedPaths + affected;
    }

    /** Any other update resets the index. */
    method Rebuild(ghost scans: R.Scans, affected: set<Path>)
      requires Valid() && S.ScansFormed(scans)
      modifies index, table`affectedPaths
      ensures table.affectedPaths == old(table.affectedPaths) + affected && table.symbols == old(table.symbols)
      ensures Valid() && InStep() && index.past.truth == scans && !index.deltaExact && index.used == {}
      ensures index.merged.None? && S.Whole(index.State())
      ensures Current() == old(Current()) && closed == old(closed) && closedScans == old(closedScans) && reached == old(reached) && full == old(full)
    {
      hide S.Formed, S.Whole, ListsAre, ValidSymbols, IndexOK, Rows, Viewed, FreshViews, Eligible;
      index.Reset(scans);
      table.affectedPaths := table.affectedPaths + affected;
    }

    /** `clear_retained_state`, and equally a full replacement, whose table carries no symbols: the next closure
    starts from an empty table. */
    method Forget()
      requires Valid()
      modifies this, table
      ensures Valid() && InStep() && Current()
      ensures closed == old(closed) && closedScans == old(closedScans)
    {
      NothingClosed(closed);
      hide S.Formed, ListsAre, ValidSymbols, IndexOK, FreshViews;
      table.Clear();
      reached, full := {}, {};
    }

    /** An analyze that the producer abandons after answering the changes: the index has settled although the client
    took nothing. The producer drops its caches with it, so its next table is a full replacement; without that the
    two would stay in step only if nothing had moved. */
    method Abandon(scans: R.Scans)
      requires Valid() && scans == index.past.truth
      modifies this, index, table
      ensures Valid() && InStep() && Current() && index.past.truth == scans
      ensures Anchored(index.State(), old(closedScans), old(table.affectedPaths)) <==> old(closedScans) == scans && old(table.affectedPaths) !! scans.Keys
    {
      hide S.Formed, S.EnsuredHeld, ListsAre, ValidSymbols, IndexOK, Rows, Viewed, FreshViews, Eligible, ListAt;
      var evidence := Prefetch(scans);
      Forget();
    }

    /** What an analyze asks beside its table: the changes, their lists at the affected paths, and a release. */
    method Prefetch(scans: R.Scans) returns (evidence: References)
      requires index.Valid() && scans == index.past.truth
      modifies index
      ensures index.Valid() && S.Settled(index.State()) && index.past.truth == scans && index.past.base == old(index.past.base)
      ensures index.deltaExact == old(index.deltaExact) && index.used == {} && index.past.moved == old(index.past.moved)
      ensures evidence.Keys == (if index.deltaExact then index.changedSymbols else {})
      ensures forall id :: id in evidence ==> evidence[id] == AtPaths(ListAt(index.paths, S.EnsuredHeld(old(index.State())), id), table.affectedPaths)
      ensures index.past.held == ReadHeld(old(index.State()), old(index.used), evidence.Keys, true)
    {
      hide S.Formed, S.EnsuredHeld, ListAt, AtPaths, ReleasedHeldOf;
      var named, exact := index.ChangedReferences(scans);
      var lists := map[];
      if exact { lists := index.ReferencesBatch(scans, named); }
      evidence := EvidenceAt(lists, table.affectedPaths);
      assert evidence.Keys == lists.Keys;
      assert index.used == old(index.used) + evidence.Keys;
      index.ReleaseAnalysisState();
    }

    /** The symbol closure of one analyze. Starting in step and current, the client's symbols end as a from-scratch
    closure of the new program exactly when the stable patch applied or, on the general path, the index missed
    no file's spans of a list that was read and nothing that was newly due had a list. */
    method Close(program: Program, scans: R.Scans, seeds: set<SymbolID>, roots: seq<SymbolID>, seedsChanged: bool, prefetch: bool)
      returns (patched: bool, changed: set<SymbolID>, reply: Reply, read: set<SymbolID>)
      requires Valid() && InStep() && Current() && scans == index.past.truth && ListsAre(program, scans)
      requires forall id :: id in roots && id != "" ==> id in seeds
      requires !seedsChanged ==> prefetch && SameSeeds(closed, seeds, roots, reached, full)
      requires !seedsChanged ==> QuietOutside(closed, reached, full, closedScans, scans, table.affectedPaths)
      requires !seedsChanged ==> OthersHeld(program, closed, reached, Viewed(Rows(table.symbols)), table.affectedPaths)
      modifies this, index, table
      ensures Valid() && InStep() && closed == program && closedScans == scans && index.past.truth == scans && table.affectedPaths == {}
      ensures LeastClosed(program, seeds - {""}, reached) && LeastClosed(program, SetOf(roots) - {""}, full)
      ensures forall id :: id in changed <==> Find(old(Viewed(Rows(table.symbols))), id) != Find(Viewed(Rows(table.symbols)), id)
      ensures reply.exact == old(index.deltaExact) && (!reply.exact ==> reply.ids == {}) && (patched ==> !seedsChanged && reply.exact && read == {})
      ensures !patched ==> forall id :: id in read <==> Eligible(program, reached, full, id) && Queried(old(Viewed(Rows(table.symbols))), reply, id)
      ensures Current() <==> (patched || (
        && (forall id :: id in read ==>
              S.HeldAll(ReadHeld(old(index.State()), old(index.used), reply.ids, prefetch), scans, id))
        && (forall id :: NewlyDue(old(closed), program, old(reached), old(full), reached, full, reply, id) ==> FactOf(program, id).references == [])))
    {
      hide S.Formed, S.Settled, ListsAre, ValidSymbols, IndexOK, Rows, Viewed, FreshViews, Eligible, ReadHeld, S.HeldAll, NewlyDue, FactOf;
      hide Queried, LeastClosed, SetOf, Find, SameSeeds, QuietOutside, InvalidatedBy, SameFact, AtPaths, ListAt, Answers, R.SpansAt, Anchored;
      hide ChangesNamed, EvidenceFrom, OthersHeld;
      ghost var before := index.State();
      var evidence;
      reply, evidence := Ask(scans, prefetch);
      ghost var nextReached, nextFull;
      patched, changed, read, nextReached, nextFull :=
        CloseTable(before, index.State(), program, seeds, roots, seedsChanged, reply, evidence);
      SettledAnchored(index.State());
      if !patched { Finish(scans, read + reply.ids); }
      table.affectedPaths := {};
      closed, closedScans, reached, full := program, scans, nextReached, nextFull;
    }

    /** The table's part. */
    method CloseTable(ghost before: S.IndexState, ghost s: S.IndexState, program: Program, seeds: set<SymbolID>, roots: seq<SymbolID>,
        seedsChanged: bool, reply: Reply, evidence: References)
      returns (patched: bool, changed: set<SymbolID>, read: set<SymbolID>, ghost nextReached: set<SymbolID>, ghost nextFull: set<SymbolID>)
      requires ValidSymbols(table.symbols) && IndexOK(Viewed(Rows(table.symbols)), table.symbolsByPath) && ListsAre(closed, closedScans)
      requires FreshViews(closed, reached, full, Viewed(Rows(table.symbols)))
      requires forall id :: id in table.referenceTier <==> Eligible(closed, reached, full, id)
      requires S.Formed(before) && (reached == {} || Anchored(before, closedScans, table.affectedPaths)) && ListsAre(program, s.truth)
      requires S.Formed(s) && S.Settled(s) && s.truth == before.truth && ChangesNamed(before, s, reply)
      requires EvidenceFrom(before, s, reply, table.affectedPaths, evidence) && (!seedsChanged && reply.exact ==> evidence.Keys == reply.ids)
      requires forall id :: id in roots && id != "" ==> id in seeds
      requires !seedsChanged ==> SameSeeds(closed, seeds, roots, reached, full)
      requires !seedsChanged ==> QuietOutside(closed, reached, full, closedScans, s.truth, table.affectedPaths)
      requires !seedsChanged ==> OthersHeld(program, closed, reached, Viewed(Rows(table.symbols)), table.affectedPaths)
      modifies table
      ensures ValidSymbols(table.symbols) && IndexOK(Viewed(Rows(table.symbols)), table.symbolsByPath)
      ensures forall id :: id in table.referenceTier <==> Eligible(program, nextReached, nextFull, id)
      ensures LeastClosed(program, seeds - {""}, nextReached) && LeastClosed(program, SetOf(roots) - {""}, nextFull)
      ensures forall id :: id in changed <==> Find(old(Viewed(Rows(table.symbols))), id) != Find(Viewed(Rows(table.symbols)), id)
      ensures patched ==> !seedsChanged && reply.exact && read == {}
      ensures !patched ==> forall id :: id in read <==> Eligible(program, nextReached, nextFull, id) && Queried(old(Viewed(Rows(table.symbols))), reply, id)
      ensures FreshViews(program, nextReached, nextFull, Viewed(Rows(table.symbols))) <==> (patched || (
        && (forall id :: id in read ==> S.HeldAll(s.held, s.truth, id))
        && (forall id :: NewlyDue(closed, program, reached, full, nextReached, nextFull, reply, id) ==> FactOf(program, id).references == [])))
    {
      hide *;
      ghost var views, affected := Viewed(Rows(table.symbols)), table.affectedPaths;
      ReadyToClose(before, s, closed, closedScans, program, reached, full, views, affected, reply);
      if !seedsChanged {
        ReadyToPatch(before, s, closed, closedScans, program, reached, full, views, affected, reply, evidence);
      }
      patched, changed, read, nextReached, nextFull :=
        table.CloseSymbols(closed, program, reached, full, seeds, roots, seedsChanged, reply, evidence);
      ReadsAre(patched, program, table.referenceTier, nextReached, nextFull, views, reply, evidence, read);
      ReadsWholeIff(program, s, reply, read);
    }

    /** The requests before the table closes. */
    method Ask(scans: R.Scans, prefetch: bool) returns (reply: Reply, evidence: References)
      requires index.Valid() && scans == index.past.truth
      modifies index
      ensures index.Valid() && S.Formed(index.State()) && S.Settled(index.State())
      ensures index.State().truth == scans
      ensures reply.exact == old(index.deltaExact) && (!reply.exact ==> reply.ids == {}) && index.past.truth == scans
      ensures ChangesNamed(old(index.State()), index.State(), reply)
      ensures EvidenceFrom(old(index.State()), index.State(), reply, table.affectedPaths, evidence)
      ensures index.State().held == ReadHeld(old(index.State()), old(index.used), reply.ids, prefetch)
      ensures evidence.Keys == if prefetch && reply.exact then reply.ids else {}
    {
      hide S.Formed, S.EnsuredHeld, ListAt, AtPaths, ReleasedHeldOf, Answers, R.SpansAt, Located;
      evidence := map[];
      if prefetch { evidence := Prefetch(scans); }
      var ids, exact := index.ChangedReferences(scans);
      reply := Reply(exact, ids, Answers(index.merged.value, index.paths));
    }

    /** On the general path: the lists read, those answered again beside the changes, and the release that follows. */
    method Finish(scans: R.Scans, read: set<SymbolID>)
      requires index.Valid() && scans == index.past.truth && S.Settled(index.State())
      modifies index
      ensures index.Valid() && index.past.truth == scans && Anchored(index.State(), scans, {})
    {
      hide S.Formed, S.EnsuredHeld, ListAt, ReleasedHeldOf, R.SpansAt, Located;
      var lists := index.ReferencesBatch(scans, read);
      index.ReleaseAnalysisState();
    }
  }
}
