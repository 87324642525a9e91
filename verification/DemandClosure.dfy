/** The producer's demand closure as the source writes it: one object whose fields the
steps update in place, and one long materialisation in loops
(internal/typefacts/semantic_retained.go, closure.go, semantic_demand.go). */
module DemandClosures {
  import opened SortedRows
  import opened Order
  import opened Facts
  import opened Contributions
  import opened Oracles
  import opened Engine
  import opened ContributionStores
  import opened DemandStores

  /** Where a materialisation may stop with an error. */
  datatype Fault = NoFault | AsyncFault | ChangedRunsFault | RefreshRunsFault

  /** Resolves aligned runs under one injected scope: a first pass collects the batch's own
  structural symbols, a second one answers every run under the scope and the batch. */
  method SemanticDemandRuns(o: Oracle, runs: seq<DemandGroup>, suppression: set<SymbolID>) returns (results: seq<Contribution>)
    ensures |results| == |runs|
    ensures forall i :: 0 <= i < |runs| ==>
      results[i] == Answered(o, runs[i].key, runs[i].value, suppression + RunsStructural(o, runs))
  {
    hide Answered, Structural;
    var batch: set<SymbolID> := {};
    for index := 0 to |runs|
      invariant batch == RunsStructural(o, runs[..index])
    {
      batch := batch + Structural(o, runs[index].key, runs[index].value);
      assert runs[..index + 1] == runs[..index] + [runs[index]];
      RunsStructuralAppend(o, runs[..index], runs[index]);
    }
    assert runs[..|runs|] == runs;
    results := [];
    for index := 0 to |runs|
      invariant |results| == index
      invariant forall i :: 0 <= i < index ==> results[i] == Answered(o, runs[i].key, runs[i].value, suppression + batch)
    {
      results := results + [Answered(o, runs[index].key, runs[index].value, suppression + batch)];
    }
  }

  function RunsStructural(o: Oracle, runs: seq<DemandGroup>): set<SymbolID> {
    set run, symbol | run in runs && symbol in Structural(o, run.key, run.value) :: symbol
  }

  lemma RunsStructuralAppend(o: Oracle, runs: seq<DemandGroup>, run: DemandGroup)
    ensures RunsStructural(o, runs + [run]) == RunsStructural(o, runs) + Structural(o, run.key, run.value)
  {
    forall symbol ensures symbol in RunsStructural(o, runs + [run])
      <==> symbol in RunsStructural(o, runs) || symbol in Structural(o, run.key, run.value)
    {
      if symbol in Structural(o, run.key, run.value) { assert run in runs + [run]; }
      if symbol in RunsStructural(o, runs) {
        var r :| r in runs && symbol in Structural(o, r.key, r.value);
        assert r in runs + [run];
      }
    }
  }

  /** The runs are the groups of `batch`, in group order. */
  ghost predicate RunsOf(runs: seq<DemandGroup>, groups: Groups, batch: set<Path>) {
    && batch <= groups.Keys
    && (forall run :: run in runs <==> run.key in batch && groups[run.key] == run.value)
    && (forall i, j :: 0 <= i < j < |runs| ==> runs[i].key != runs[j].key)
  }

  lemma RunsAppend(runs: seq<DemandGroup>, groups: Groups, batch: set<Path>, run: DemandGroup)
    requires RunsOf(runs, groups, batch) && run.key !in batch
    requires run.key in groups && groups[run.key] == run.value
    ensures RunsOf(runs + [run], groups, batch + {run.key})
  {
    assert forall i :: 0 <= i < |runs| ==> runs[i] in runs;
  }

  lemma RunsStructuralIsBatch(o: Oracle, runs: seq<DemandGroup>, groups: Groups, batch: set<Path>)
    requires RunsOf(runs, groups, batch)
    ensures RunsStructural(o, runs) == BatchStructural(o, groups, batch)
  {
    forall symbol ensures symbol in RunsStructural(o, runs) <==> symbol in BatchStructural(o, groups, batch) {
      if symbol in BatchStructural(o, groups, batch) {
        var path :| path in batch && path in groups && symbol in Structural(o, path, groups[path]);
        assert Row(path, groups[path]) in runs;
      }
    }
  }

  lemma GroupAt(groups: seq<DemandGroup>, index: nat)
    requires Sorted(groups) && index < |groups|
    ensures groups[index].key in AsMap(groups) && AsMap(groups)[groups[index].key] == groups[index].value
    ensures forall k :: 0 <= k < |groups| && k != index ==> groups[k].key != groups[index].key
  {
    TotalOrder();
    FindAt(groups, index);
  }

  lemma GroupIndex(groups: seq<DemandGroup>, path: Path) returns (index: nat)
    requires Sorted(groups) && path in AsMap(groups)
    ensures index < |groups| && groups[index] == Row(path, AsMap(groups)[path])
  {
    index := FindWitness(groups, path);
  }

  function KeysOf(groups: seq<DemandGroup>): set<Path> {
    set group | group in groups :: group.key
  }

  /** Walking ordered groups visits each of the map's entries once. */
  lemma GroupStep(groups: seq<DemandGroup>, index: nat)
    requires Sorted(groups) && index < |groups|
    ensures var path := groups[index].key;
      && path in AsMap(groups) && AsMap(groups)[path] == groups[index].value
      && path !in KeysOf(groups[..index])
      && KeysOf(groups[..index + 1]) == KeysOf(groups[..index]) + {path}
  {
    hide Less, Find, AsMap;
    GroupAt(groups, index);
    assert groups[..index + 1] == groups[..index] + [groups[index]];
    forall group | group in groups[..index] ensures group.key != groups[index].key {
      var k :| 0 <= k < index && groups[k] == group;
    }
  }

  lemma GroupsWalked(groups: seq<DemandGroup>)
    requires Sorted(groups)
    ensures KeysOf(groups[..0]) == {}
    ensures KeysOf(groups[..|groups|]) == AsMap(groups).Keys
  {
    hide Less;
    assert groups[..|groups|] == groups;
    forall path ensures path in KeysOf(groups) <==> path in AsMap(groups) {
      if path in AsMap(groups) { var i := GroupIndex(groups, path); }
      if path in KeysOf(groups) {
        var i :| 0 <= i < |groups| && groups[i].key == path;
        GroupAt(groups, i);
      }
    }
  }

  function StructuralOf(chosen: map<Path, Contribution>): set<SymbolID> {
    set path, symbol | path in chosen && symbol in chosen[path].structural :: symbol
  }

  lemma UnionStep(chosen: map<Path, Contribution>, path: Path, contribution: Contribution)
    requires path !in chosen
    ensures StructuralOf(chosen[path := contribution]) == StructuralOf(chosen) + SetOf(contribution.structural)
  {
    var next := chosen[path := contribution];
    forall symbol ensures symbol in StructuralOf(next) <==> symbol in StructuralOf(chosen) + SetOf(contribution.structural) {
      if symbol in contribution.structural { assert symbol in next[path].structural; }
      if symbol in StructuralOf(chosen) {
        var p :| p in chosen && symbol in chosen[p].structural;
        assert symbol in next[p].structural;
      }
    }
  }

  lemma NextAsyncMeaning(
    o: Oracle, c: Closure, m: Groups, byPath: map<Path, seq<AsyncFunctionFact>>, cacheable: bool)
    requires forall path :: path in byPath <==> path in m && AsyncRun(m[path]) != []
    requires forall path :: path in byPath ==> byPath[path] == AsyncAt(o, c, m, path)
    requires cacheable <==> forall path :: path in byPath ==> DurableAsync(byPath[path])
    ensures NextAsyncFiles(o, c, m) == if cacheable then Some(byPath) else None
  {
    var all := map path | path in m && AsyncRun(m[path]) != [] :: AsyncAt(o, c, m, path);
    assert all == byPath;
    if !cacheable {
      var path :| path in byPath && !DurableAsync(byPath[path]);
      assert path in m && AsyncRun(m[path]) != [] && !DurableAsync(AsyncAt(o, c, m, path));
    }
  }

  lemma SelectStart(c: Closure, m: Groups)
    ensures StructuralOf(map[]) == {}
    ensures RunsOf([], m, Recomputed(c, m) * {})
  {
  }

  lemma KeptOrRecomputed(c: Closure, m: Groups, path: Path)
    requires path in m
    ensures path in Kept(c, m) <==> (
      path in c.retained && ((c.changedPaths.Some? && path !in c.changedPaths.value) || c.retained[path].demands == m[path]))
    ensures path in Recomputed(c, m) <==> path !in Kept(c, m)
  {
  }

  lemma SelectEnd(c: Closure, m: Groups, chosen: map<Path, Contribution>)
    requires chosen.Keys == Kept(c, m) * m.Keys
    requires forall path :: path in chosen ==> path in c.retained && chosen[path] == c.retained[path]
    ensures chosen == map path | path in Kept(c, m) :: c.retained[path]
    ensures StructuralOf(chosen) == KeptUnion(c, m)
    ensures Recomputed(c, m) * m.Keys == Recomputed(c, m)
  {
    forall symbol ensures symbol in StructuralOf(chosen) <==> symbol in KeptUnion(c, m) {
      if symbol in KeptUnion(c, m) {
        var path :| path in Kept(c, m) && path in c.retained && symbol in c.retained[path].structural;
        assert symbol in chosen[path].structural;
      }
    }
  }

  class DemandClosure {
    const store: RetainedContributionStore
    var generation: nat
    var table: Option<Table>
    var previousTable: Option<Table>
    var transportChangedPaths: Option<set<Path>>
    var lastSuppression: Option<set<SymbolID>>
    var asyncFiles: Option<map<Path, seq<AsyncFunctionFact>>>

    ghost predicate Valid()
      reads this, store
    {
      store.Valid()
    }

    ghost function State(): Closure
      reads this, store
    {
      Closure(generation, table, previousTable, transportChangedPaths, store.byPath, lastSuppression, asyncFiles)
    }

    constructor ()
      ensures Valid() && fresh(store)
      ensures State() == Closure(1, None, None, None, map[], None, None)
    {
      store := new RetainedContributionStore();
      generation, table, previousTable, transportChangedPaths := 1, None, None, None;
      lastSuppression, asyncFiles := None, None;
    }

    /** An accepted update advances exactly one generation and evicts what it invalidates. */
    method Update(invalid: set<Path>)
      requires Valid()
      modifies this, store
      ensures Valid() && State() == Updated(old(State()), invalid)
    {
      previousTable := table;
      table := None;
      var extended := store.Invalidate(invalid);
      transportChangedPaths := Some(extended);
      generation := generation + 1;
      assert DirectDependents(old(store.byPath), invalid) + invalid == Evicted(old(State()), invalid);
    }

    /** Drops every derived cache; the generation stays. */
    method ResetAnalysisState()
      requires Valid()
      modifies this, store
      ensures Valid() && State() == ResetClosure(old(State()))
    {
      table, previousTable, transportChangedPaths := None, None, None;
      lastSuppression, asyncFiles := None, None;
      store.Reset();
    }

    /** The wire owns the expanded rows: keep compact contributions and an empty table. */
    method ReleaseTransportRows()
      requires Valid() && table.Some?
      modifies this, store
      ensures Valid() && State() == Released(old(State()))
    {
      ReleaseContributions();
      table := Some(table.value.(entities := map[], files := map[], sources := map[]));
    }

    method ReleaseContributions()
      requires Valid()
      modifies store
      ensures Valid() && store.byPath == map path | path in old(store.byPath) :: WithoutRows(old(store.byPath)[path])
    {
      var remaining := store.byPath.Keys;
      while remaining != {}
        invariant remaining <= old(store.byPath).Keys == store.byPath.Keys
        invariant forall path :: path in store.byPath && path in remaining ==> store.byPath[path] == old(store.byPath)[path]
        invariant forall path :: path in store.byPath && path !in remaining ==> store.byPath[path] == WithoutRows(old(store.byPath)[path])
        invariant Valid()
      {
        var path :| path in remaining;
        store.Release(path);
        remaining := remaining - {path};
      }
    }

    // --- the materialisation, stage by stage ---

    method AsyncFor(o: Oracle, path: Path, demands: Run, ghost m: Groups) returns (facts: seq<AsyncFunctionFact>)
      requires path in m && demands == AsyncRun(m[path]) != []
      ensures facts == AsyncAt(o, State(), m, path)
    {
      if asyncFiles.None? || transportChangedPaths.None? || path in transportChangedPaths.value || path !in asyncFiles.value {
        facts := o.asyncFunctions(path, demands);
      } else {
        facts := asyncFiles.value[path];
      }
    }

    /** Async facts: cached unless the group changed, everything is refreshed, or nothing is cached. */
    method RefreshAsync(o: Oracle, groups: seq<DemandGroup>)
      returns (byPath: map<Path, seq<AsyncFunctionFact>>, next: Option<map<Path, seq<AsyncFunctionFact>>>)
      requires Sorted(groups)
      ensures forall path :: path in byPath <==> path in AsMap(groups) && AsyncRun(AsMap(groups)[path]) != []
      ensures forall path :: path in byPath ==> byPath[path] == AsyncAt(o, State(), AsMap(groups), path)
      ensures next == NextAsyncFiles(o, State(), AsMap(groups))
    {
      hide *;
      ghost var m := AsMap(groups);
      byPath := map[];
      var cacheable := true;
      GroupsWalked(groups);
      for index := 0 to |groups|
        invariant KeysOf(groups[..index]) <= m.Keys
        invariant forall path :: path in byPath <==> path in KeysOf(groups[..index]) && AsyncRun(m[path]) != []
        invariant forall path :: path in byPath ==> byPath[path] == AsyncAt(o, State(), m, path)
        invariant cacheable <==> forall path :: path in byPath ==> DurableAsync(byPath[path])
      {
        GroupStep(groups, index);
        var path := groups[index].key;
        var demands := AsyncRun(groups[index].value);
        if demands != [] {
          var facts := AsyncFor(o, path, demands, m);
          ghost var earlier := byPath;
          byPath := byPath[path := facts];
          assert forall p :: p in earlier ==> byPath[p] == earlier[p];
          assert byPath[path] == facts;
          if !DurableAsync(facts) { cacheable := false; }
        }
      }
      NextAsyncMeaning(o, State(), m, byPath, cacheable);
      next := if cacheable then Some(byPath) else None;
    }

    /** The reuse decision: which groups keep their contribution and which run again. */
    method SelectKept(groups: seq<DemandGroup>, ghost c: Closure)
      returns (chosen: map<Path, Contribution>, union: set<SymbolID>, changedRuns: seq<DemandGroup>)
      requires Sorted(groups)
      requires c.retained == store.byPath && c.changedPaths == transportChangedPaths
      ensures chosen == map path | path in Kept(c, AsMap(groups)) :: c.retained[path]
      ensures union == KeptUnion(c, AsMap(groups))
      ensures RunsOf(changedRuns, AsMap(groups), Recomputed(c, AsMap(groups)))
    {
      hide *;
      ghost var m := AsMap(groups);
      chosen, union, changedRuns := map[], {}, [];
      GroupsWalked(groups);
      SelectStart(c, m);
      for index := 0 to |groups|
        invariant KeysOf(groups[..index]) <= m.Keys
        invariant chosen.Keys == Kept(c, m) * KeysOf(groups[..index])
        invariant forall path :: path in chosen ==> path in c.retained && chosen[path] == c.retained[path]
        invariant union == StructuralOf(chosen)
        invariant RunsOf(changedRuns, m, Recomputed(c, m) * KeysOf(groups[..index]))
      {
        GroupStep(groups, index);
        var path := groups[index].key;
        // Runs outside the exact changed paths are known to be unchanged without hashing.
        var same := path in store.byPath
          && ((transportChangedPaths.Some? && path !in transportChangedPaths.value) || store.byPath[path].demands == groups[index].value);
        KeptOrRecomputed(c, m, path);
        ghost var walked := KeysOf(groups[..index]);
        if same {
          UnionStep(chosen, path, store.byPath[path]);
          union := union + SetOf(store.byPath[path].structural);
          chosen := chosen[path := store.byPath[path]];
          assert Recomputed(c, m) * (walked + {path}) == Recomputed(c, m) * walked;
        } else {
          RunsAppend(changedRuns, m, Recomputed(c, m) * walked, groups[index]);
          changedRuns := changedRuns + [groups[index]];
          assert Recomputed(c, m) * (walked + {path}) == Recomputed(c, m) * walked + {path};
        }
      }
      SelectEnd(c, m, chosen);
    }

    /** Kept paths whose descriptor symbols lie in the difference of the two unions. */
    method SelectRefresh(kept: set<Path>, union: set<SymbolID>, ghost o: Oracle, ghost c: Closure, ghost m: Groups)
      returns (refresh: set<Path>)
      requires Valid() && c.retained == store.byPath && c.lastSuppression == lastSuppression
      requires kept == Kept(c, m) && union == UnionOf(o, c, m)
      ensures refresh == Refreshed(o, c, m)
    {
      refresh := {};
      if lastSuppression.None? || union == lastSuppression.value { return; }
      var last := lastSuppression.value;
      var delta := (union - last) + (last - union);
      var remaining := delta;
      while remaining != {}
        invariant remaining <= delta
        invariant refresh == set path | path in kept && exists symbol ::
          symbol in store.byPath[path].descriptorSymbols && symbol in delta - remaining
      {
        var symbol :| symbol in remaining;
        var users := store.DescriptorUsersOf(symbol);
        refresh := refresh + (users * kept);
        remaining := remaining - {symbol};
      }
    }

    /** Rows go to the wire as per-path windows; groups without rows send none. */
    method EntityRuns(groups: seq<DemandGroup>, chosen: map<Path, Contribution>) returns (runs: map<Path, seq<EntityFact>>)
      requires Sorted(groups) && chosen.Keys == AsMap(groups).Keys
      ensures runs == map path | path in chosen && chosen[path].entities != [] :: chosen[path].entities
    {
      runs := map[];
      for index := 0 to |groups|
        invariant KeysOf(groups[..index]) <= chosen.Keys
        invariant runs.Keys == set path | path in KeysOf(groups[..index]) && path in chosen && chosen[path].entities != []
        invariant forall path :: path in runs ==> runs[path] == chosen[path].entities
      {
        GroupStep(groups, index);
        var path := groups[index].key;
        if chosen[path].entities != [] {
          runs := runs[path := chosen[path].entities];
        }
      }
      GroupsWalked(groups);
    }

    method CommitContributions(groups: seq<DemandGroup>, chosen: map<Path, Contribution>)
      requires Valid() && Sorted(groups) && chosen.Keys == AsMap(groups).Keys
      modifies store
      ensures Valid() && store.byPath == map path | path in chosen && chosen[path].durable :: chosen[path]
    {
      forall i | 0 <= i < |groups| ensures groups[i].key in chosen { GroupAt(groups, i); }
      var pairs := seq(|groups|, i requires 0 <= i < |groups| => (groups[i].key, chosen[groups[i].key]));
      forall i, j | 0 <= i < j < |pairs| ensures pairs[i].0 != pairs[j].0 { GroupAt(groups, i); }
      store.Commit(pairs);
      forall path ensures path in store.byPath <==> path in chosen && chosen[path].durable {
        if path in chosen {
          var i := GroupIndex(groups, path);
          assert pairs[i] == (path, chosen[path]);
        }
        if path in store.byPath { assert (path, store.byPath[path]) in pairs; }
      }
      forall path | path in store.byPath ensures store.byPath[path] == chosen[path] {
        assert (path, store.byPath[path]) in pairs;
      }
    }

    /** Pairs the rebuilt contributions with their paths. */
    method Rebuild(o: Oracle, runs: seq<DemandGroup>, suppression: set<SymbolID>, ghost m: Groups, ghost batch: set<Path>)
      returns (rebuilt: map<Path, Contribution>)
      requires RunsOf(runs, m, batch)
      ensures rebuilt == map path | path in batch && path in m
        :: Answered(o, path, m[path], suppression + BatchStructural(o, m, batch))
    {
      hide Answered, BatchStructural, RunsStructural;
      var results := SemanticDemandRuns(o, runs, suppression);
      RunsStructuralIsBatch(o, runs, m, batch);
      rebuilt := map[];
      for index := 0 to |runs|
        invariant rebuilt.Keys == KeysOf(runs[..index])
        invariant forall i :: 0 <= i < index ==> runs[i].key in rebuilt && rebuilt[runs[i].key] == results[i]
      {
        assert runs[..index + 1] == runs[..index] + [runs[index]];
        rebuilt := rebuilt[runs[index].key := results[index]];
      }
      assert runs[..|runs|] == runs;
      forall path ensures path in KeysOf(runs) <==> path in batch {
        if path in batch { assert Row(path, m[path]) in runs; }
      }
      forall path | path in rebuilt ensures rebuilt[path] == Answered(o, path, m[path], suppression + BatchStructural(o, m, batch)) {
        assert Row(path, m[path]) in runs;
        var i :| 0 <= i < |runs| && runs[i] == Row(path, m[path]);
      }
    }

    /** The groups of a path set, in group order. */
    method RunsFor(groups: seq<DemandGroup>, batch: set<Path>) returns (runs: seq<DemandGroup>)
      requires Sorted(groups) && batch <= AsMap(groups).Keys
      ensures RunsOf(runs, AsMap(groups), batch)
    {
      hide *;
      ghost var m := AsMap(groups);
      runs := [];
      GroupsWalked(groups);
      RunsOfNone(m, batch * KeysOf(groups[..0]));
      for index := 0 to |groups|
        invariant KeysOf(groups[..index]) <= m.Keys
        invariant RunsOf(runs, m, batch * KeysOf(groups[..index]))
      {
        GroupStep(groups, index);
        var path := groups[index].key;
        ghost var walked := KeysOf(groups[..index]);
        if path in batch {
          RunsAppend(runs, m, batch * walked, groups[index]);
          runs := runs + [groups[index]];
          assert batch * (walked + {path}) == batch * walked + {path};
        } else {
          assert batch * (walked + {path}) == batch * walked;
        }
      }
      assert batch * m.Keys == batch;
    }

    /** Contributions for every group: kept, recomputed under the whole scope, or refreshed
    because their suppression flipped. The union is the one the commit records. */
    method ChooseContributions(o: Oracle, groups: seq<DemandGroup>, fault: Fault, ghost c: Closure)
      returns (ok: bool, chosen: map<Path, Contribution>, union: set<SymbolID>, moved: set<Path>)
      requires Valid() && Sorted(groups) && Lawful(o)
      requires c.retained == store.byPath && c.changedPaths == transportChangedPaths && c.lastSuppression == lastSuppression
      ensures ok <==> fault != ChangedRunsFault && fault != RefreshRunsFault
      ensures ok ==> chosen == map path | path in AsMap(groups) :: NextContribution(o, c, AsMap(groups), path)
      ensures ok ==> union == UnionOf(o, c, AsMap(groups))
      ensures ok ==> moved == Recomputed(c, AsMap(groups)) + Refreshed(o, c, AsMap(groups))
    {
      hide *;
      ghost var m := AsMap(groups);
      var changedRuns: seq<DemandGroup>;
      chosen, union, changedRuns := SelectKept(groups, c);
      ok, moved := false, {};
      if fault == ChangedRunsFault { return; }
      var recomputed := Rebuild(o, changedRuns, union, m, Recomputed(c, m));
      var minted := DurableStructural(recomputed);
      RecomputedUnion(o, c, m, recomputed);
      union := union + minted;
      var refresh := SelectRefresh(chosen.Keys, union, o, c, m);
      RefreshedAreGroups(o, c, m);
      if fault == RefreshRunsFault { return; }
      var refreshRuns := RunsFor(groups, refresh);
      var refreshed := Rebuild(o, refreshRuns, union, m, refresh);
      ChosenIsNext(o, c, m, chosen, recomputed, refreshed);
      chosen := chosen + recomputed + refreshed;
      moved := recomputed.Keys + refresh;
      ok := true;
    }

    /** One retained materialisation and its commit. On an error the derived state is left
    as far as it got; the session then abandons it. */
    method Materialize(o: Oracle, groups: seq<DemandGroup>, fault: Fault) returns (ok: bool)
      requires Valid() && Sorted(groups) && Lawful(o)
      modifies this, store
      ensures Valid() && generation == old(generation)
      ensures ok <==> fault == NoFault
      ensures ok ==> State() == Materialized(o, old(State()), AsMap(groups))
    {
      hide Kept, Recomputed, KeptUnion, UnionOf, Refreshed, NextContribution, NextRetained, NextAsyncFiles, AsyncAt, AsMap, Less, Find;
      ghost var c, m := State(), AsMap(groups);
      if fault == AsyncFault { return false; }
      var asyncByPath, nextAsync := RefreshAsync(o, groups);
      asyncFiles := nextAsync;
      var files := map path | path in o.sources :: FileFact(path, if path in asyncByPath then asyncByPath[path] else []);
      var chosen, union, moved;
      ok, chosen, union, moved := ChooseContributions(o, groups, fault, c);
      if !ok { return; }
      MaterializedFields(o, c, m, chosen, asyncByPath);
      var manifest := ManifestPaths(moved);
      var runs := EntityRuns(groups, chosen);
      table := Some(Table(generation, o.sources, runs, files, if previousTable.None? then None else manifest));
      CommitContributions(groups, chosen);
      lastSuppression := Some(union);
      previousTable, transportChangedPaths := None, None;
      FinishMaterialized(o, c, m, table.value, State());
    }

    /** Every recomputed group's rows may differ, so all of them join the changed paths. */
    method ManifestPaths(moved: set<Path>) returns (manifest: Option<set<Path>>)
      ensures manifest == if moved != {}
        then Some((if transportChangedPaths.Some? then transportChangedPaths.value else {}) + moved) else transportChangedPaths
    {
      manifest := transportChangedPaths;
      if moved != {} {
        manifest := Some((if transportChangedPaths.Some? then transportChangedPaths.value else {}) + moved);
      }
    }

    /** Demand changes drop the named runs and turn the current table into the predecessor;
    a table is materialised only when none is current. */
    method DemandTable(o: Oracle, groups: seq<DemandGroup>, changedPaths: set<Path>, fault: Fault) returns (ok: bool)
      requires Valid() && Sorted(groups) && Lawful(o)
      modifies this, store
      ensures Valid() && generation == old(generation)
      ensures ok <==> fault == NoFault || BeginDemands(old(State()), changedPaths).table.Some?
      ensures ok ==> State() == Tabled(o, BeginDemands(old(State()), changedPaths), AsMap(groups))
    {
      if changedPaths != {} {
        if table.Some? {
          previousTable := table;
          table := None;
        }
        store.Discard(changedPaths);
        transportChangedPaths := Some((if transportChangedPaths.Some? then transportChangedPaths.value else {}) + changedPaths);
      }
      assert State() == BeginDemands(old(State()), changedPaths);
      ok := true;
      if table.None? {
        ok := Materialize(o, groups, fault);
      }
    }
  }

  lemma RunsOfNone(m: Groups, batch: set<Path>)
    requires batch == {}
    ensures RunsOf([], m, batch)
  {
  }

  function DurableStructural(chosen: map<Path, Contribution>): set<SymbolID> {
    set symbol | symbol in StructuralOf(chosen) && DurableSymbolID(symbol)
  }

  /** The recomputed contributions carry the batch's structural symbols. */
  lemma RecomputedUnion(o: Oracle, c: Closure, m: Groups, recomputed: map<Path, Contribution>)
    requires Lawful(o)
    requires recomputed == map path | path in Recomputed(c, m) && path in m
      :: Answered(o, path, m[path], KeptUnion(c, m) + BatchStructural(o, m, Recomputed(c, m)))
    ensures KeptUnion(c, m) + DurableStructural(recomputed) == UnionOf(o, c, m)
  {
    forall symbol ensures symbol in StructuralOf(recomputed) <==> symbol in BatchStructural(o, m, Recomputed(c, m)) {
      if symbol in BatchStructural(o, m, Recomputed(c, m)) {
        var path :| path in Recomputed(c, m) && path in m && symbol in Structural(o, path, m[path]);
        assert recomputed[path].structural == Answered(o, path, m[path], {}).structural;
      }
      if symbol in StructuralOf(recomputed) {
        var path :| path in recomputed && symbol in recomputed[path].structural;
        assert recomputed[path].structural == Answered(o, path, m[path], {}).structural;
        assert symbol in Structural(o, path, m[path]);
      }
    }
  }

  lemma RefreshedAreGroups(o: Oracle, c: Closure, m: Groups)
    ensures Refreshed(o, c, m) <= m.Keys
  {
  }

  lemma ChosenIsNext(
    o: Oracle, c: Closure, m: Groups,
    kept: map<Path, Contribution>, recomputed: map<Path, Contribution>, refreshed: map<Path, Contribution>)
    requires kept == map path | path in Kept(c, m) :: c.retained[path]
    requires recomputed == map path | path in Recomputed(c, m) && path in m
      :: Answered(o, path, m[path], KeptUnion(c, m) + BatchStructural(o, m, Recomputed(c, m)))
    requires refreshed == map path | path in Refreshed(o, c, m) && path in m
      :: Answered(o, path, m[path], UnionOf(o, c, m) + BatchStructural(o, m, Refreshed(o, c, m)))
    ensures kept + recomputed + refreshed == map path | path in m :: NextContribution(o, c, m, path)
    ensures recomputed.Keys == Recomputed(c, m)
  {
    hide Answered, KeptUnion, UnionOf, BatchStructural, Keeps;
    var all := kept + recomputed + refreshed;
    assert all.Keys == m.Keys;
    forall path | path in m ensures all[path] == NextContribution(o, c, m, path) {
      assert path in Kept(c, m) || path in Recomputed(c, m);
    }
  }

  /** The table and caches a materialisation writes are those of the specification. */
  lemma MaterializedFields(
    o: Oracle, c: Closure, m: Groups, chosen: map<Path, Contribution>, asyncByPath: map<Path, seq<AsyncFunctionFact>>)
    requires chosen == map path | path in m :: NextContribution(o, c, m, path)
    requires forall path :: path in asyncByPath <==> path in m && AsyncRun(m[path]) != []
    requires forall path :: path in asyncByPath ==> asyncByPath[path] == AsyncAt(o, c, m, path)
    ensures (map path | path in chosen && chosen[path].durable :: chosen[path]) == NextRetained(o, c, m)
    ensures (map path | path in chosen && chosen[path].entities != [] :: chosen[path].entities) == NextTable(o, c, m).entities
    ensures (map path | path in o.sources :: FileFact(path, if path in asyncByPath then asyncByPath[path] else []))
      == NextTable(o, c, m).files
  {
    hide NextContribution, AsyncRun;
  }

  lemma FinishMaterialized(o: Oracle, c: Closure, m: Groups, table: Table, state: Closure)
    requires table == NextTable(o, c, m)
    requires state == Closure(c.generation, Some(table), None, None, NextRetained(o, c, m), Some(UnionOf(o, c, m)), NextAsyncFiles(o, c, m))
    ensures state == Materialized(o, c, m)
  {
  }
}
