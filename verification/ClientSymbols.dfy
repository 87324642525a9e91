/** The client session's symbol state (crates/typefacts/src/session.rs): the retained
symbols, the reference tier, and the index from declaring path to symbol. */
module ClientSymbols {
  import opened Order
  import opened SortedRows
  import opened Facts
  import opened KeyedEdits
  import opened PackedIndexes
  import opened RetainedSymbols
  import opened SymbolDeltas
  import opened SymbolPatches
  import opened SymbolPrograms
  import opened ClientClosures
  import opened ClientPatches
  import Stores = SymbolStorePatches

  // --- the stable patch, step by step ---

  ghost predicate AliasHeld(program: Program, views: seq<Row<SymbolView>>, id: SymbolID) {
    Find(views, id).Some? && Find(views, id).value.aliasTarget == AliasOf(program, id)
  }

  /** The row a stable patch ends with. */
  function PatchedRow(program: Program, full: set<SymbolID>, refresh: set<SymbolID>, reply: Reply, id: SymbolID): SymbolBody {
    if id in refresh then Bare(program, id).(references := ListOf(reply, id)) else Fresh(program, full, id)
  }

  ghost predicate PatchedViews(program: Program, reached: set<SymbolID>, full: set<SymbolID>, refresh: set<SymbolID>, reply: Reply,
      views: seq<Row<SymbolView>>) {
    && Sorted(views)
    && (forall id :: Find(views, id) == if id in reached then Some(ViewOf(PatchedRow(program, full, refresh, reply, id))) else None)
  }

  /** A stable patch leaves the fresh closure exactly when each list that was read is answered whole. */
  lemma PatchedFreshIff(program: Program, reached: set<SymbolID>, full: set<SymbolID>, refresh: set<SymbolID>, reply: Reply, views: seq<Row<SymbolView>>)
    requires PatchedViews(program, reached, full, refresh, reply, views)
    requires forall id :: id in refresh ==> Eligible(program, reached, full, id)
    ensures FreshViews(program, reached, full, views) <==> forall id :: id in refresh ==> ListOf(reply, id) == FactOf(program, id).references
  {
    hide Find, Sorted, ViewOf, ListOf, FactOf;
    forall id | id in reached
      ensures Find(views, id) == Some(ViewOf(Fresh(program, full, id))) <==> (id in refresh ==> ListOf(reply, id) == FactOf(program, id).references)
    {
      if id in refresh {
        assert Bare(program, id).(references := FactOf(program, id).references) == Fresh(program, full, id);
        ViewOfInjective(PatchedRow(program, full, refresh, reply, id), Fresh(program, full, id));
      }
    }
  }

  /** Whatever the lists, its facts are current. */
  lemma PatchedFacts(program: Program, reached: set<SymbolID>, full: set<SymbolID>, refresh: set<SymbolID>, reply: Reply, views: seq<Row<SymbolView>>, id: SymbolID)
    requires PatchedViews(program, reached, full, refresh, reply, views)
    ensures Find(views, id).Some? <==> id in reached
    ensures id in reached ==> Find(views, id).value.declarations == FactOf(program, id).declarations
  {
    hide Find, Sorted, RunsOf, ListOf, FactOf;
  }

  /** A re-resolved fact keeps the list the table has. */
  function Kept(program: Program, views: seq<Row<SymbolView>>, id: SymbolID): SymbolBody {
    Bare(program, id).(references := Retained(views, id))
  }

  method PatchInvalidated(program: Program, symbols: PackedIndex<StoredSymbol>, invalidated: set<SymbolID>)
    returns (patches: FactMap, ok: bool)
    requires Valid(symbols)
    requires forall id :: id in invalidated ==> Find(Viewed(Rows(symbols)), id).Some?
    ensures ok <==> forall id :: id in invalidated ==> AliasHeld(program, Viewed(Rows(symbols)), id)
    ensures ok ==> forall id :: id in patches <==> id in invalidated
    ensures forall id :: id in patches ==> patches[id] == Kept(program, Viewed(Rows(symbols)), id)
  {
    hide *;
    ghost var views := Viewed(Rows(symbols));
    patches := map[];
    var remaining := invalidated;
    while remaining != {}
      invariant remaining <= invalidated
      invariant forall id :: id in patches <==> id in invalidated && id !in remaining
      invariant forall id :: id in patches ==> AliasHeld(program, views, id) && patches[id] == Kept(program, views, id)
      decreases |remaining|
    {
      var id :| id in remaining;
      remaining := remaining - {id};
      FindViewed(symbols, id);
      var retained := Get(symbols, id);
      HeldIs(program, symbols, id, retained.value);
      if retained.value.aliasTarget != AliasOf(program, id) { return patches, false; }
      patches := patches[id := Bare(program, id).(references := FlattenRuns(Rows(retained.value.references)))];
    }
    ok := true;
  }

  lemma HeldIs(program: Program, symbols: PackedIndex<StoredSymbol>, id: SymbolID, stored: StoredSymbol)
    requires Find(Rows(symbols), id) == Some(stored)
    ensures AliasHeld(program, Viewed(Rows(symbols)), id) <==> stored.aliasTarget == AliasOf(program, id)
    ensures Kept(program, Viewed(Rows(symbols)), id) == Bare(program, id).(references := FlattenRuns(Rows(stored.references)))
  {
    hide Rows, Find, MapRows, FlattenRuns, AliasOf, Bare;
    FindViewed(symbols, id);
    RetainedIs(symbols, id, stored);
  }

  /** The rest of the changed lists are read whole. */
  method PatchRefreshed(program: Program, patches: FactMap, refresh: set<SymbolID>, reply: Reply) returns (next: FactMap)
    ensures forall id :: id in next <==> id in patches || id in refresh
    ensures forall id :: id in refresh ==> next[id] == Bare(program, id).(references := ListOf(reply, id))
    ensures forall id :: id in patches && id !in refresh ==> next[id] == patches[id]
  {
    hide *;
    next := patches;
    var remaining := refresh;
    while remaining != {}
      invariant remaining <= refresh
      invariant forall id :: id in next <==> id in patches || (id in refresh && id !in remaining)
      invariant forall id :: id in refresh && id !in remaining ==> next[id] == Bare(program, id).(references := ListOf(reply, id))
      invariant forall id :: id in patches && (id !in refresh || id in remaining) ==> next[id] == patches[id]
      decreases |remaining|
    {
      var id :| id in remaining;
      remaining := remaining - {id};
      next := next[id := Bare(program, id).(references := ListOf(reply, id))];
    }
  }

  /** Evidence rows replace only the affected paths. */
  method PatchCovered(symbols: PackedIndex<StoredSymbol>, covered: set<SymbolID>, paths: seq<Path>, evidence: References)
    returns (next: PackedIndex<StoredSymbol>, changed: set<SymbolID>)
    requires ValidSymbols(symbols) && covered <= evidence.Keys
    requires forall id :: id in covered ==> Find(Viewed(Rows(symbols)), id).Some?
    ensures ValidSymbols(next)
    ensures forall id :: id in covered ==>
      Find(Viewed(Rows(next)), id) == PatchedView(Find(Viewed(Rows(symbols)), id), paths, evidence[id])
    ensures forall id :: id !in covered ==> Find(Viewed(Rows(next)), id) == Find(Viewed(Rows(symbols)), id)
    ensures forall id :: id in changed <==> id in covered && Find(Viewed(Rows(next)), id) != Find(Viewed(Rows(symbols)), id)
  {
    hide *;
    ghost var views := Viewed(Rows(symbols));
    next, changed := symbols, {};
    var remaining := covered;
    CoveredEnd(views, covered, paths, evidence);
    assert covered - remaining == {};
    while remaining != {}
      invariant remaining <= covered && ValidSymbols(next)
      invariant forall id :: Find(Viewed(Rows(next)), id) == CoveredView(views, covered - remaining, paths, evidence, id)
      invariant forall id :: id in changed <==> id in covered - remaining && Find(Viewed(Rows(next)), id) != Find(views, id)
      decreases |remaining|
    {
      var id :| id in remaining;
      ghost var done := covered - remaining;
      remaining := remaining - {id};
      assert covered - remaining == done + {id};
      ghost var before := Viewed(Rows(next));
      ValidSymbolsParts(next);
      ViewedSorted(Rows(next));
      CoveredStep(views, done, paths, evidence, id);
      var patched, moved := PatchReferencePaths(next, id, paths, evidence[id]);
      ChangeMeaning(before, id, PatchedView(Find(before, id), paths, evidence[id]));
      ChangeSameIff(before, id, PatchedView(Find(before, id), paths, evidence[id]));
      next := patched;
      if moved { changed := changed + {id}; }
    }
    assert covered - remaining == covered;
  }

  function CoveredView(views: seq<Row<SymbolView>>, done: set<SymbolID>, paths: seq<Path>, evidence: References, id: SymbolID): Option<SymbolView> {
    if id in done && id in evidence then PatchedView(Find(views, id), paths, evidence[id]) else Find(views, id)
  }

  lemma CoveredStep(views: seq<Row<SymbolView>>, done: set<SymbolID>, paths: seq<Path>, evidence: References, id: SymbolID)
    requires id in evidence && id !in done
    ensures CoveredView(views, done, paths, evidence, id) == Find(views, id)
    ensures CoveredView(views, done + {id}, paths, evidence, id) == PatchedView(Find(views, id), paths, evidence[id])
    ensures forall k :: k != id ==> CoveredView(views, done + {id}, paths, evidence, k) == CoveredView(views, done, paths, evidence, k)
  {
    hide Find, PatchedView;
  }

  lemma CoveredEnd(views: seq<Row<SymbolView>>, covered: set<SymbolID>, paths: seq<Path>, evidence: References)
    requires covered <= evidence.Keys
    ensures forall id :: CoveredView(views, {}, paths, evidence, id) == Find(views, id)
    ensures forall id :: id in covered ==> CoveredView(views, covered, paths, evidence, id) == PatchedView(Find(views, id), paths, evidence[id])
    ensures forall id :: id !in covered ==> CoveredView(views, covered, paths, evidence, id) == Find(views, id)
  {
    hide Find, PatchedView;
  }

  // --- the patched rows, one symbol at a time ---

  /** A stable patch: the programs, the table before it, and the sets it works with. */
  datatype Patching = Patching(
    before: Program, program: Program, reached: set<SymbolID>, full: set<SymbolID>, tier: set<SymbolID>,
    views: seq<Row<SymbolView>>, invalidated: set<SymbolID>, affected: set<Path>, reply: Reply, evidence: References,
    covered: set<SymbolID>, refresh: set<SymbolID>, patches: FactMap, paths: seq<Path>)

  ghost predicate Stable(p: Patching) {
    StableTable(p.before, p.program, p.reached, p.full, p.views, p.invalidated, p.affected, p.reply, p.evidence)
  }

  lemma StableIs(p: Patching)
    ensures Stable(p) <==> StableTable(p.before, p.program, p.reached, p.full, p.views, p.invalidated, p.affected, p.reply, p.evidence)
  {
    hide StableTable;
  }

  ghost predicate StablePlan(p: Patching) {
    && (forall id :: id in p.tier <==> Eligible(p.before, p.reached, p.full, id))
    && (forall id :: id in p.covered <==> id in p.tier && id in p.reply.ids && id in p.evidence && AliasOf(p.program, id) == "")
    && (forall id :: id in p.refresh <==> id in p.tier && id in p.reply.ids && id !in p.covered)
  }

  ghost predicate StablePatches(p: Patching) {
    && (forall id :: id in p.patches <==> id in p.invalidated || id in p.refresh)
    && (forall id :: id in p.refresh ==> p.patches[id] == Bare(p.program, id).(references := ListOf(p.reply, id)))
    && (forall id :: id in p.invalidated && id !in p.refresh ==> p.patches[id] == Kept(p.program, p.views, id))
  }

  function Structural(views: seq<Row<SymbolView>>, patches: FactMap, id: SymbolID): Option<SymbolView> {
    if id in patches then Some(ViewOf(patches[id])) else Find(views, id)
  }

  function Final(views: seq<Row<SymbolView>>, patches: FactMap, covered: set<SymbolID>, paths: seq<Path>, evidence: References, id: SymbolID): Option<SymbolView> {
    if id in covered && id in evidence then PatchedView(Structural(views, patches, id), paths, evidence[id]) else Structural(views, patches, id)
  }

  /** The structural patch of a symbol whose list is not read whole is its fresh row but for
  the list, which is the prior one. */
  lemma StructuralIs(p: Patching, id: SymbolID)
    requires Stable(p)
    requires StablePlan(p)
    requires StablePatches(p)
    requires id in p.reached && id !in p.refresh
    ensures Structural(p.views, p.patches, id) == Some(ViewOf(Bare(p.program, id).(references := Fresh(p.before, p.full, id).references)))
  {
    hide Find, Sorted, FactOf, ViewOf, Retained, ListsOrdered, LocationsAt;
    RetainedFresh(p.before, p.reached, p.full, p.views, id);
    assert Find(p.views, id) == Some(ViewOf(Fresh(p.before, p.full, id)));
    if id !in p.invalidated {
      assert SameFact(p.program, id, FactOf(p.before, id));
      assert Bare(p.program, id).(references := Fresh(p.before, p.full, id).references) == Fresh(p.before, p.full, id);
    }
  }

  /** Every symbol ends with its fresh row, but for the lists that were read. */
  lemma FinalFresh(p: Patching, id: SymbolID)
    requires Stable(p)
    requires StablePlan(p)
    requires StablePatches(p)
    requires p.reply.exact && SetOf(p.paths) == p.affected
    requires forall k :: k in p.invalidated ==> AliasHeld(p.program, p.views, k)
    ensures Final(p.views, p.patches, p.covered, p.paths, p.evidence, id)
      == if id in p.reached then Some(ViewOf(PatchedRow(p.program, p.full, p.refresh, p.reply, id))) else None
  {
    hide *;
    RefreshReached(p);
    PatchedRowCase(p.program, p.full, p.refresh, p.reply, id);
    StableIs(p);
    if id !in p.reached {
      OutsideUntouched(p, id);
    } else {
      AliasSame(p.before, p.program, p.reached, p.full, p.views, p.invalidated, p.affected, p.reply, p.evidence, id);
      if id in p.refresh {
        RefreshedFresh(p, id);
      } else {
        StructuralIs(p, id);
        if id in p.covered {
          CoveredFresh(p, id);
        } else {
          UnmovedFresh(p, id);
        }
      }
    }
  }

  lemma AliasSame(before: Program, program: Program, reached: set<SymbolID>, full: set<SymbolID>,
      views: seq<Row<SymbolView>>, invalidated: set<SymbolID>, affected: set<Path>, reply: Reply, evidence: References, id: SymbolID)
    requires StableTable(before, program, reached, full, views, invalidated, affected, reply, evidence) && id in reached
    requires forall k :: k in invalidated ==> AliasHeld(program, views, k)
    ensures AliasOf(program, id) == AliasOf(before, id)
  {
    hide Find, Sorted, ListsOrdered, LocationsAt, RunsOf;
    assert Find(views, id) == Some(ViewOf(Fresh(before, full, id)));
    if id in invalidated { assert AliasHeld(program, views, id); }
  }

  lemma OutsideUntouched(p: Patching, id: SymbolID)
    requires Stable(p)
    requires StablePlan(p)
    requires StablePatches(p) && id !in p.reached
    ensures Final(p.views, p.patches, p.covered, p.paths, p.evidence, id) == None
  {
    hide Find, Sorted, ListsOrdered, LocationsAt, FactOf, ViewOf, PatchedView;
  }

  lemma RefreshedFresh(p: Patching, id: SymbolID)
    requires StablePlan(p)
    requires StablePatches(p)
    requires id in p.refresh
    ensures Final(p.views, p.patches, p.covered, p.paths, p.evidence, id) == Some(ViewOf(Bare(p.program, id).(references := ListOf(p.reply, id))))
  {
    hide Find, FactOf, ViewOf, PatchedView, ListOf;
  }

  lemma RefreshReached(p: Patching)
    requires StablePlan(p)
    ensures p.refresh <= p.reached
  {
    hide AliasOf;
  }

  lemma CoveredFresh(p: Patching, id: SymbolID)
    requires Stable(p)
    requires StablePlan(p)
    requires id in p.covered && AliasOf(p.program, id) == AliasOf(p.before, id) && SetOf(p.paths) == p.affected
    requires Structural(p.views, p.patches, id) == Some(ViewOf(Bare(p.program, id).(references := Fresh(p.before, p.full, id).references)))
    ensures Final(p.views, p.patches, p.covered, p.paths, p.evidence, id) == Some(ViewOf(Fresh(p.program, p.full, id)))
  {
    hide Find, Sorted, FactOf, LocationsAt, RunsOf, PathOrdered, PatchedView, Structural;
    assert Fresh(p.before, p.full, id).references == FactOf(p.before, id).references;
    assert Fresh(p.program, p.full, id) == Bare(p.program, id).(references := FactOf(p.program, id).references);
    forall path | path in p.paths ensures LocationsAt(p.evidence[id], path) == LocationsAt(FactOf(p.program, id).references, path) {
      assert path in p.affected;
    }
    forall path | path !in p.paths
      ensures LocationsAt(FactOf(p.before, id).references, path) == LocationsAt(FactOf(p.program, id).references, path)
    {
      assert path !in p.affected;
    }
    PatchedIsCurrent(Structural(p.views, p.patches, id).value, p.paths, p.evidence[id], FactOf(p.program, id).references, FactOf(p.before, id).references);
  }

  lemma UnmovedFresh(p: Patching, id: SymbolID)
    requires Stable(p)
    requires StablePlan(p)
    requires p.reply.exact && id in p.reached && id !in p.covered && id !in p.refresh && AliasOf(p.program, id) == AliasOf(p.before, id)
    requires Structural(p.views, p.patches, id) == Some(ViewOf(Bare(p.program, id).(references := Fresh(p.before, p.full, id).references)))
    ensures Final(p.views, p.patches, p.covered, p.paths, p.evidence, id) == Some(ViewOf(Fresh(p.program, p.full, id)))
  {
    hide Find, Sorted, FactOf, LocationsAt, ViewOf, ListsOrdered, Structural;
    assert Fresh(p.program, p.full, id) == Bare(p.program, id).(references := Fresh(p.before, p.full, id).references);
  }

  /** A covered symbol's evidence never hides its structural change, so the two reports
  together name exactly the symbols that moved. */
  lemma MovedIffReported(program: Program, views: seq<Row<SymbolView>>, symbol: Option<SymbolView>, structural: SymbolView,
      paths: seq<Path>, references: seq<Location>)
    requires symbol.Some? && structural.runs == symbol.value.runs
    ensures var last := PatchedView(Some(structural), paths, references);
      last != symbol <==> Some(structural) != symbol || last != Some(structural)
  {
    hide Change, LocationsAt;
    PatchedKeeps(structural, paths, references);
  }

  lemma {:induction false} PatchedKeeps(view: SymbolView, paths: seq<Path>, references: seq<Location>)
    ensures var patched := PatchedView(Some(view), paths, references);
      patched.Some? && patched.value.aliasTarget == view.aliasTarget && patched.value.declarations == view.declarations
  {
    hide Change, LocationsAt;
    if paths != [] { PatchedKeeps(view, paths[..|paths| - 1], references); }
  }

  /** A tier symbol the delta names without evidence. */
  predicate Unreported(program: Program, tier: set<SymbolID>, reply: Reply, evidence: References, id: SymbolID) {
    id in tier && id in reply.ids && !(id in evidence && AliasOf(program, id) == "")
  }

  /** `patch_stable_symbols`, the rows: it goes ahead exactly when the delta is exact and no
  invalidated symbol changed its alias edge, and then each row is the fresh one but for the lists that are
  read whole, which are as answered. */
  method PatchStable(ghost before: Program, program: Program, ghost reached: set<SymbolID>, ghost full: set<SymbolID>,
      symbols: PackedIndex<StoredSymbol>, tier: set<SymbolID>, invalidated: set<SymbolID>, affected: set<Path>,
      reply: Reply, evidence: References)
    returns (result: Option<PackedIndex<StoredSymbol>>, changed: set<SymbolID>, queried: set<SymbolID>)
    requires ValidSymbols(symbols) && RepliesOrdered(reply)
    requires StableTable(before, program, reached, full, Viewed(Rows(symbols)), invalidated, affected, reply, evidence)
    requires forall id :: id in tier <==> Eligible(before, reached, full, id)
    ensures result.Some? <==> reply.exact && forall id :: id in invalidated ==> AliasHeld(program, Viewed(Rows(symbols)), id)
    ensures result.Some? ==> ValidSymbols(result.value)
    ensures result.Some? ==> forall id :: id in queried <==> Unreported(program, tier, reply, evidence, id)
    ensures result.Some? ==> PatchedViews(program, reached, full, queried, reply, Viewed(Rows(result.value)))
    ensures result.Some? ==>
      forall id :: id in changed <==> Find(Viewed(Rows(symbols)), id) != Find(Viewed(Rows(result.value)), id)
  {
    hide *;
    if !reply.exact { return None, {}, {}; }
    ghost var views := Viewed(Rows(symbols));
    ValidSymbolsParts(symbols);
    StableKnown(before, program, reached, full, views, invalidated, affected, reply, evidence);
    var structural, ok := PatchInvalidated(program, symbols, invalidated);
    if !ok { return None, {}, {}; }
    var covered := set id | id in tier && id in reply.ids && id in evidence && AliasOf(program, id) == "";
    var refresh := set id | id in tier && id in reply.ids && id !in covered;
    var patches := PatchRefreshed(program, structural, refresh, reply);
    var paths := SortedKeys(affected);
    ghost var p := Patching(before, program, reached, full, tier, views, invalidated, affected, reply, evidence, covered, refresh, patches, paths);
    StableIs(p);
    PlanIs(p);
    PatchesAre(p);
    var listed := Stores.PatchFacts(patches);
    PatchesOrdered(p, listed);
    var patched, moved := PatchSymbols(symbols, listed);
    ViewedSorted(Rows(symbols));
    forall id ensures Find(Viewed(Rows(patched)), id) == Structural(views, patches, id) {
      PatchedFind(views, listed, id);
      StructuralCase(views, patches, id);
    }
    CoveredKnown(p);
    var next, touched := PatchCovered(patched, covered, paths, evidence);
    forall id ensures Find(Viewed(Rows(next)), id) == if id in reached then Some(ViewOf(PatchedRow(program, full, refresh, reply, id))) else None {
      FinalFresh(p, id);
      FinalCase(views, patches, covered, paths, evidence, id);
    }
    ValidSymbolsParts(next);
    ViewedSorted(Rows(next));
    PatchedViewsIs(program, reached, full, refresh, reply, Viewed(Rows(next)));
    result, queried := Some(next), refresh;
    forall id ensures id in queried <==> Unreported(program, tier, reply, evidence, id) { UnreportedIs(p, id); }
    changed := (set id | id in moved) + touched;
    forall id ensures id in changed <==> Find(views, id) != Find(Viewed(Rows(next)), id) {
      assert id in moved <==> Find(views, id) != Structural(views, patches, id);
      if id in covered {
        ReportedAt(p, id);
      }
    }
  }

  lemma ReportedAt(p: Patching, id: SymbolID)
    requires Stable(p)
    requires StablePlan(p)
    requires StablePatches(p) && id in p.covered
    ensures id in p.evidence
    ensures var last := PatchedView(Structural(p.views, p.patches, id), p.paths, p.evidence[id]);
      last != Find(p.views, id) <==> Structural(p.views, p.patches, id) != Find(p.views, id) || last != Structural(p.views, p.patches, id)
  {
    hide Sorted, FactOf, RunsOf, LocationsAt, PatchedView, Structural, Find;
    StructuralIs(p, id);
    assert Find(p.views, id) == Some(ViewOf(Fresh(p.before, p.full, id)));
    MovedIffReported(p.program, p.views, Find(p.views, id), Structural(p.views, p.patches, id).value, p.paths, p.evidence[id]);
  }

  lemma StableKnown(before: Program, program: Program, reached: set<SymbolID>, full: set<SymbolID>,
      views: seq<Row<SymbolView>>, invalidated: set<SymbolID>, affected: set<Path>, reply: Reply, evidence: References)
    requires StableTable(before, program, reached, full, views, invalidated, affected, reply, evidence)
    ensures forall id :: id in invalidated ==> Find(views, id).Some?
    ensures evidence.Keys <= reply.ids
  {
    hide Find, Sorted, ListsOrdered, LocationsAt, FactOf, ViewOf;
  }

  lemma PlanIs(p: Patching)
    requires forall id :: id in p.tier <==> Eligible(p.before, p.reached, p.full, id)
    requires p.covered == set id | id in p.tier && id in p.reply.ids && id in p.evidence && AliasOf(p.program, id) == ""
    requires p.refresh == set id | id in p.tier && id in p.reply.ids && id !in p.covered
    ensures StablePlan(p)
    ensures p.covered <= p.evidence.Keys
  {
    hide AliasOf, Eligible;
  }

  lemma UnreportedIs(p: Patching, id: SymbolID)
    requires p.covered == set id | id in p.tier && id in p.reply.ids && id in p.evidence && AliasOf(p.program, id) == ""
    requires p.refresh == set id | id in p.tier && id in p.reply.ids && id !in p.covered
    ensures id in p.refresh <==> Unreported(p.program, p.tier, p.reply, p.evidence, id)
  {
    hide AliasOf;
  }

  lemma PatchesAre(p: Patching)
    requires forall id :: id in p.patches <==> id in p.invalidated || id in p.refresh
    requires forall id :: id in p.refresh ==> p.patches[id] == Bare(p.program, id).(references := ListOf(p.reply, id))
    requires forall id :: id in p.invalidated && id !in p.refresh ==> p.patches[id] == Kept(p.program, p.views, id)
    ensures StablePatches(p)
  {
    hide Kept, Bare, FactOf, ListOf;
  }

  lemma StructuralCase(views: seq<Row<SymbolView>>, patches: FactMap, id: SymbolID)
    ensures Structural(views, patches, id) == if id in patches then Some(ViewOf(patches[id])) else Find(views, id)
  {
  }

  lemma FinalCase(views: seq<Row<SymbolView>>, patches: FactMap, covered: set<SymbolID>, paths: seq<Path>, evidence: References, id: SymbolID)
    requires covered <= evidence.Keys
    ensures id in covered ==>
      Final(views, patches, covered, paths, evidence, id) == PatchedView(Structural(views, patches, id), paths, evidence[id])
    ensures id !in covered ==> Final(views, patches, covered, paths, evidence, id) == Structural(views, patches, id)
  {
    hide Structural, PatchedView;
  }

  lemma PatchedViewsIs(program: Program, reached: set<SymbolID>, full: set<SymbolID>, refresh: set<SymbolID>, reply: Reply, views: seq<Row<SymbolView>>)
    requires Sorted(views) && forall id :: Find(views, id) == if id in reached then Some(ViewOf(PatchedRow(program, full, refresh, reply, id))) else None
    ensures PatchedViews(program, reached, full, refresh, reply, views)
  {
    hide Sorted, Find, ViewOf, PatchedRow;
  }

  lemma PatchedRowCase(program: Program, full: set<SymbolID>, refresh: set<SymbolID>, reply: Reply, id: SymbolID)
    ensures PatchedRow(program, full, refresh, reply, id)
      == if id in refresh then Bare(program, id).(references := ListOf(reply, id)) else Fresh(program, full, id)
  {
  }

  /** Every patched list is in canonical path order. */
  lemma PatchesOrdered(p: Patching, listed: seq<Row<SymbolBody>>)
    requires Stable(p) && RepliesOrdered(p.reply)
    requires StablePatches(p)
    requires DistinctKeys(listed) && forall id :: Find(listed, id) == if id in p.patches then Some(p.patches[id]) else None
    ensures FactsValid(listed)
  {
    hide Find, Sorted, FactOf, PathOrdered, LocationsAt, ViewOf, Retained, ListOf;
    NothingOrdered();
    forall i | 0 <= i < |listed| ensures PathOrdered(listed[i].value.references) {
      FindDistinct(listed, i);
      var id := listed[i].key;
      if id !in p.refresh { RetainedFresh(p.before, p.reached, p.full, p.views, id); }
    }
  }

  lemma NothingOrdered()
    ensures PathOrdered([])
  {
  }

  lemma CoveredKnown(p: Patching)
    requires Stable(p)
    requires StablePlan(p)
    ensures forall id :: id in p.covered ==> Structural(p.views, p.patches, id).Some?
  {
    hide Find, Sorted, FactOf, PathOrdered, LocationsAt, ViewOf;
  }

  // --- the index from declaring path to symbol ---

  type PathIndex = map<Path, seq<SymbolID>>

  predicate Listed(index: PathIndex, path: Path, id: SymbolID) {
    path in index && id in index[path]
  }

  ghost predicate DeclaresIn(declarations: seq<Declaration>, path: Path) {
    exists k :: 0 <= k < |declarations| && declarations[k].location.path == path
  }

  ghost predicate DeclaredAt(views: seq<Row<SymbolView>>, id: SymbolID, path: Path) {
    Find(views, id).Some? && DeclaresIn(Find(views, id).value.declarations, path)
  }

  /** Buckets list exactly the symbols declared at their path, and none is empty. */
  ghost predicate IndexOK(views: seq<Row<SymbolView>>, index: PathIndex) {
    && (forall path, id :: Listed(index, path, id) <==> DeclaredAt(views, id, path))
    && (forall path :: path in index ==> index[path] != [])
  }

  ghost predicate NoEmptyBucket(index: PathIndex) {
    forall path :: path in index ==> index[path] != []
  }

  function Without(ids: seq<SymbolID>, id: SymbolID): seq<SymbolID> {
    if ids == [] then [] else if ids[0] == id then Without(ids[1..], id) else [ids[0]] + Without(ids[1..], id)
  }

  lemma {:induction false} WithoutIs(ids: seq<SymbolID>, id: SymbolID, other: SymbolID)
    ensures other in Without(ids, id) <==> other in ids && other != id
  {
    if ids != [] {
      WithoutIs(ids[1..], id, other);
      assert ids == [ids[0]] + ids[1..];
    }
  }

  ghost predicate StillListed(index: PathIndex, id: SymbolID, declarations: seq<Declaration>, path: Path, other: SymbolID) {
    Listed(index, path, other) && !(other == id && DeclaresIn(declarations, path))
  }

  ghost predicate NowListed(index: PathIndex, id: SymbolID, declarations: seq<Declaration>, path: Path, other: SymbolID) {
    Listed(index, path, other) || (other == id && DeclaresIn(declarations, path))
  }

  /** One symbol leaves the buckets of its declarations; an emptied bucket is dropped. */
  method Unlist(index: PathIndex, id: SymbolID, declarations: seq<Declaration>) returns (next: PathIndex)
    requires NoEmptyBucket(index)
    ensures NoEmptyBucket(next)
    ensures forall path, other :: Listed(next, path, other) <==> StillListed(index, id, declarations, path, other)
  {
    next := index;
    for k := 0 to |declarations|
      invariant NoEmptyBucket(next)
      invariant forall path, other :: Listed(next, path, other) <==> StillListed(index, id, declarations[..k], path, other)
    {
      hide Without, DeclaresIn;
      var path := declarations[k].location.path;
      ghost var before := next;
      if path in next {
        var kept := Without(next[path], id);
        forall other ensures other in kept <==> other in next[path] && other != id { WithoutIs(next[path], id, other); }
        next := if kept == [] then next - {path} else next[path := kept];
      }
      UnlistStep(index, id, declarations, k, before, next);
    }
    assert declarations[..|declarations|] == declarations;
  }

  lemma UnlistStep(index: PathIndex, id: SymbolID, declarations: seq<Declaration>, k: nat, before: PathIndex, after: PathIndex)
    requires k < |declarations|
    requires forall path, other :: Listed(before, path, other) <==> StillListed(index, id, declarations[..k], path, other)
    requires forall path, other :: (
      Listed(after, path, other) <==> Listed(before, path, other) && !(path == declarations[k].location.path && other == id))
    ensures forall path, other :: Listed(after, path, other) <==> StillListed(index, id, declarations[..k + 1], path, other)
  {
    hide Listed, DeclaresIn;
    forall path, other ensures Listed(after, path, other) <==> StillListed(index, id, declarations[..k + 1], path, other) {
      DeclaresNext(declarations, k, path);
      assert Listed(before, path, other) <==> StillListed(index, id, declarations[..k], path, other);
    }
  }

  lemma ListStep(index: PathIndex, id: SymbolID, declarations: seq<Declaration>, k: nat, before: PathIndex, after: PathIndex)
    requires k < |declarations|
    requires forall path, other :: Listed(before, path, other) <==> NowListed(index, id, declarations[..k], path, other)
    requires forall path, other :: (
      Listed(after, path, other) <==> Listed(before, path, other) || (path == declarations[k].location.path && other == id))
    ensures forall path, other :: Listed(after, path, other) <==> NowListed(index, id, declarations[..k + 1], path, other)
  {
    hide Listed, DeclaresIn;
    forall path, other ensures Listed(after, path, other) <==> NowListed(index, id, declarations[..k + 1], path, other) {
      DeclaresNext(declarations, k, path);
      assert Listed(before, path, other) <==> NowListed(index, id, declarations[..k], path, other);
    }
  }

  lemma DeclaresNext(declarations: seq<Declaration>, k: nat, path: Path)
    requires k < |declarations|
    ensures DeclaresIn(declarations[..k + 1], path) <==> DeclaresIn(declarations[..k], path) || declarations[k].location.path == path
  {
    if DeclaresIn(declarations[..k], path) {
      var i :| 0 <= i < k && declarations[..k][i].location.path == path;
      assert declarations[..k + 1][i].location.path == path;
    }
    assert declarations[..k + 1][k] == declarations[k];
    if DeclaresIn(declarations[..k + 1], path) && declarations[k].location.path != path {
      var i :| 0 <= i < k + 1 && declarations[..k + 1][i].location.path == path;
      assert declarations[..k][i].location.path == path;
    }
  }

  /** One symbol joins the buckets of its declarations. */
  method List(index: PathIndex, id: SymbolID, declarations: seq<Declaration>) returns (next: PathIndex)
    requires NoEmptyBucket(index)
    ensures NoEmptyBucket(next)
    ensures forall path, other :: Listed(next, path, other) <==> NowListed(index, id, declarations, path, other)
  {
    next := index;
    for k := 0 to |declarations|
      invariant NoEmptyBucket(next)
      invariant forall path, other :: Listed(next, path, other) <==> NowListed(index, id, declarations[..k], path, other)
    {
      hide DeclaresIn;
      var path := declarations[k].location.path;
      ghost var before := next;
      if !Listed(next, path, id) {
        next := next[path := (if path in next then next[path] else []) + [id]];
      }
      ListStep(index, id, declarations, k, before, next);
    }
    assert declarations[..|declarations|] == declarations;
  }

  /** `rebuild_symbol_path_index`. */
  method RebuildIndex(symbols: PackedIndex<StoredSymbol>) returns (index: PathIndex)
    requires Valid(symbols)
    ensures IndexOK(Viewed(Rows(symbols)), index)
  {
    index := map[];
    ghost var views := Viewed(Rows(symbols));
    ViewedSorted(Rows(symbols));
    hide Rows, Valid, Less, Find, DeclaresIn;
    assert views[..0] == [];
    FindEmpty<SymbolView>();
    for k := 0 to |Rows(symbols)|
      invariant NoEmptyBucket(index)
      invariant forall path, id :: Listed(index, path, id) <==> DeclaredAt(views[..k], id, path)
    {
      hide Sorted, Listed, NoEmptyBucket;
      assert views[..k + 1] == views[..k] + [views[k]];
      forall id ensures Find(views[..k + 1], id) == if id == views[k].key then Some(views[k].value) else Find(views[..k], id) {
        PrefixFind(views, k, id);
      }
      PrefixFind(views, k, views[k].key);
      index := List(index, Rows(symbols)[k].key, Rows(symbols)[k].value.declarations);
    }
    assert views[..|views|] == views;
  }

  lemma PrefixFind(views: seq<Row<SymbolView>>, k: nat, id: SymbolID)
    requires Sorted(views) && k < |views|
    ensures Find(views[..k + 1], id) == if id == views[k].key then Some(views[k].value) else Find(views[..k], id)
    ensures Find(views[..k], views[k].key) == None
  {
    hide Less, Find;
    assert views[..k + 1] == views[..k] + [views[k]];
    FindAppend(views[..k], views[k], id);
    BelowAbsent(views[..k], views[k].key);
  }
}
