/** The patch of the preceding symbol store when the universe is stable (internal/typefacts/symbol_closure.go). */
module ClosureStables {
  import opened Order
  import opened SortedRows
  import opened Facts
  import opened SymbolPrograms
  import opened SymbolStores
  import opened SymbolStorePatches
  import opened ClosureReferences
  import opened ClosurePatches

  /** The preceding generation: fresh rows and lists for `before`, and only invalidated
  symbols' alias and declaration facts differ in `program`. */
  ghost predicate StableBase(before: Program, program: Program, reached: set<SymbolID>, full: set<SymbolID>,
      rows: seq<Row<SymbolBody>>, cached: References, invalidated: set<SymbolID>, delta: Delta) {
    && full <= reached
    && FreshRows(before, reached, full, rows) && FreshReferences(before, reached, full, cached)
    && (forall id :: id in reached && id !in invalidated ==> SameFact(program, id, FactOf(before, id)))
    && DeltaCovers(program, cached, delta)
  }

  /** Re-resolving every invalidated reached fact found its alias edge unchanged. */
  ghost predicate EdgesHeld(program: Program, rows: seq<Row<SymbolBody>>, invalidated: set<SymbolID>) {
    forall id :: id in invalidated ==> EdgeHeld(program, rows, id)
  }

  ghost predicate EdgeHeld(program: Program, rows: seq<Row<SymbolBody>>, id: SymbolID) {
    Find(rows, id).Some? && AliasOf(program, id) == Find(rows, id).value.aliasTarget
  }

  lemma EdgesUnchanged(before: Program, program: Program, reached: set<SymbolID>, full: set<SymbolID>,
      rows: seq<Row<SymbolBody>>, cached: References, invalidated: set<SymbolID>, delta: Delta)
    requires StableBase(before, program, reached, full, rows, cached, invalidated, delta)
    ensures EdgesHeld(program, rows, invalidated) <==>
      invalidated <= reached && forall id :: id in reached ==> AliasOf(program, id) == AliasOf(before, id)
  {
    hide Find, Sorted, FreshReferences, DeltaCovers;
    if EdgesHeld(program, rows, invalidated) {
      forall id | id in reached ensures AliasOf(program, id) == AliasOf(before, id) {
        assert Find(rows, id) == Some(Fresh(before, full, id));
        assert id in invalidated ==> EdgeHeld(program, rows, id);
      }
    } else {
      var id :| id in invalidated && !EdgeHeld(program, rows, id);
      assert id in reached ==> Find(rows, id) == Some(Fresh(before, full, id));
    }
  }

  /** The invalidated facts, re-resolved, unless one is unknown or changed its alias edge. */
  method Reresolve(program: Program, invalidated: set<SymbolID>, store: Store) returns (patches: Patches, ok: bool)
    requires StoreValid(store)
    ensures ok <==> EdgesHeld(program, StoreRows(store), invalidated)
    ensures if ok then patches.Keys == invalidated else patches.Keys <= invalidated
    ensures forall id :: id in patches ==> patches[id] == Carried(program, StoreRows(store), id)
  {
    hide *;
    patches := map[];
    var remaining := invalidated;
    while remaining != {}
      invariant remaining <= invalidated
      invariant forall id :: id in patches <==> id in invalidated && id !in remaining
      invariant forall id :: id in patches ==> EdgeHeld(program, StoreRows(store), id)
      invariant forall id :: id in patches ==> patches[id] == Carried(program, StoreRows(store), id)
      decreases |remaining|
    {
      var id :| id in remaining;
      remaining := remaining - {id};
      var retained := Get(store, id);
      if retained.None? || AliasOf(program, id) != retained.value.aliasTarget {
        NotHeld(program, StoreRows(store), invalidated, id);
        return patches, false;
      }
      HeldStep(program, StoreRows(store), id);
      CarriedIs(program, StoreRows(store), id);
      BareIs(program, id);
      patches := patches[id := SymbolBody(AliasOf(program, id), FactOf(program, id).declarations, retained.value.references)];
    }
    AllHeld(program, StoreRows(store), invalidated, patches);
    ok := true;
  }

  lemma NotHeld(program: Program, rows: seq<Row<SymbolBody>>, invalidated: set<SymbolID>, id: SymbolID)
    requires id in invalidated && (Find(rows, id).None? || AliasOf(program, id) != Find(rows, id).value.aliasTarget)
    ensures !EdgesHeld(program, rows, invalidated)
  {
    hide Find, AliasOf;
    assert !EdgeHeld(program, rows, id);
  }

  lemma HeldStep(program: Program, rows: seq<Row<SymbolBody>>, id: SymbolID)
    requires Find(rows, id).Some? && AliasOf(program, id) == Find(rows, id).value.aliasTarget
    ensures EdgeHeld(program, rows, id)
  {
    hide Find, AliasOf;
  }

  lemma AllHeld(program: Program, rows: seq<Row<SymbolBody>>, invalidated: set<SymbolID>, patches: Patches)
    requires forall id :: id in patches <==> id in invalidated
    requires forall id :: id in patches ==> EdgeHeld(program, rows, id)
    ensures EdgesHeld(program, rows, invalidated) && patches.Keys == invalidated
  {
    hide EdgeHeld;
  }

  lemma BareIs(program: Program, id: SymbolID)
    ensures Bare(program, id) == SymbolBody(AliasOf(program, id), FactOf(program, id).declarations, [])
  {
  }

  /** `patchStableSymbolUniverse`, the rows: it succeeds exactly when the alias edges of
  the invalidated symbols held and the reference delta is exact. */
  method PatchStable(ghost before: Program, program: Program, ghost reached: set<SymbolID>, ghost full: set<SymbolID>,
      invalidated: set<SymbolID>, delta: Delta, store: Store, cached: References)
    returns (next: Option<Store>, references: References, changed: set<SymbolID>)
    requires StoreValid(store) && StableBase(before, program, reached, full, StoreRows(store), cached, invalidated, delta)
    ensures next.Some? <==> EdgesHeld(program, StoreRows(store), invalidated) && delta.exact
    ensures next.Some? ==> StoreValid(next.value) && FreshRows(program, reached, full, StoreRows(next.value))
    ensures next.Some? ==> FreshReferences(program, reached, full, references)
    ensures next.None? ==> references == cached
    ensures changed <= invalidated + delta.ids
  {
    hide *;
    next, references := None, cached;
    var p1, ok := Reresolve(program, invalidated, store);
    changed := p1.Keys;
    if !ok || !delta.exact { return; }
    var refresh := set id | id in delta.ids && id in cached;
    changed := changed + refresh;
    var p2, c1 := Refresh(program, store, refresh, p1, cached);
    var dropped := DropIdentical(store, p2);
    StableKnown(before, program, reached, full, store, cached, invalidated, delta, p1, refresh, p2, c1, dropped);
    var patched, shared, complete := PatchExisting(store, dropped);
    StableDone(before, program, reached, full, store, cached, invalidated, delta, p1, refresh, p2, c1, dropped, patched);
    next, references := Some(patched), c1;
  }

  /** One symbol through the stable patch. */
  lemma StableAt(before: Program, program: Program, reached: set<SymbolID>, full: set<SymbolID>,
      rows: seq<Row<SymbolBody>>, cached: References, invalidated: set<SymbolID>, delta: Delta,
      p1: Patches, refresh: set<SymbolID>, p2: Patches, c1: References, dropped: Patches, id: SymbolID)
    requires StableBase(before, program, reached, full, rows, cached, invalidated, delta)
    requires delta.exact && EdgesHeld(program, rows, invalidated)
    requires p1.Keys == invalidated && (forall k :: k in p1 ==> p1[k] == Carried(program, rows, k))
    requires refresh == set k | k in delta.ids && k in cached
    requires Refreshed(program, rows, refresh, p1, cached, p2, c1)
    requires forall k :: k in dropped <==> k in p2 && Find(rows, k) != Some(p2[k])
    requires forall k :: k in dropped ==> dropped[k] == p2[k]
    ensures id in dropped ==> Find(rows, id).Some?
    ensures Slot(rows, dropped, {}, id) == if id in reached then Some(Fresh(program, full, id)) else None
    ensures id in c1 <==> Eligible(program, reached, full, id)
    ensures id in c1 ==> c1[id] == FactOf(program, id).references
  {
    hide Find, FactOf, Sorted;
    assert RefreshedAt(program, rows, id in refresh, p1, cached, p2, c1, id);
    assert Find(rows, id) == if id in reached then Some(Fresh(before, full, id)) else None;
    if id in reached && id !in invalidated { assert SameFact(program, id, FactOf(before, id)); }
    if id in invalidated { assert Find(rows, id).Some?; }
    assert id in cached <==> Eligible(before, reached, full, id);
    assert AliasOf(before, id) == FactOf(before, id).aliasTarget;
  }

  lemma StableKnown(before: Program, program: Program, reached: set<SymbolID>, full: set<SymbolID>,
      store: Store, cached: References, invalidated: set<SymbolID>, delta: Delta,
      p1: Patches, refresh: set<SymbolID>, p2: Patches, c1: References, dropped: Patches)
    requires StableBase(before, program, reached, full, StoreRows(store), cached, invalidated, delta)
    requires delta.exact && EdgesHeld(program, StoreRows(store), invalidated)
    requires p1.Keys == invalidated && (forall k :: k in p1 ==> p1[k] == Carried(program, StoreRows(store), k))
    requires refresh == set k | k in delta.ids && k in cached
    requires Refreshed(program, StoreRows(store), refresh, p1, cached, p2, c1)
    requires forall k :: k in dropped <==> k in p2 && Find(StoreRows(store), k) != Some(p2[k])
    requires forall k :: k in dropped ==> dropped[k] == p2[k]
    ensures forall id :: id in dropped ==> Find(StoreRows(store), id).Some?
  {
    hide *;
    forall id | id in dropped ensures Find(StoreRows(store), id).Some? {
      StableAt(before, program, reached, full, StoreRows(store), cached, invalidated, delta, p1, refresh, p2, c1, dropped, id);
    }
  }

  lemma StableDone(before: Program, program: Program, reached: set<SymbolID>, full: set<SymbolID>,
      store: Store, cached: References, invalidated: set<SymbolID>, delta: Delta,
      p1: Patches, refresh: set<SymbolID>, p2: Patches, c1: References, dropped: Patches, patched: Store)
    requires StableBase(before, program, reached, full, StoreRows(store), cached, invalidated, delta)
    requires delta.exact && EdgesHeld(program, StoreRows(store), invalidated)
    requires p1.Keys == invalidated && (forall k :: k in p1 ==> p1[k] == Carried(program, StoreRows(store), k))
    requires refresh == set k | k in delta.ids && k in cached
    requires Refreshed(program, StoreRows(store), refresh, p1, cached, p2, c1)
    requires forall k :: k in dropped <==> k in p2 && Find(StoreRows(store), k) != Some(p2[k])
    requires forall k :: k in dropped ==> dropped[k] == p2[k]
    requires PatchedStore(store, patched, dropped, {})
    ensures StoreValid(patched) && FreshRows(program, reached, full, StoreRows(patched))
    ensures FreshReferences(program, reached, full, c1)
  {
    hide *;
    PatchedParts(store, patched, dropped);
    forall id ensures Find(StoreRows(patched), id) == if id in reached then Some(Fresh(program, full, id)) else None {
      StableAt(before, program, reached, full, StoreRows(store), cached, invalidated, delta, p1, refresh, p2, c1, dropped, id);
    }
    forall id ensures (id in c1 <==> Eligible(program, reached, full, id)) && (id in c1 ==> c1[id] == FactOf(program, id).references) {
      StableAt(before, program, reached, full, StoreRows(store), cached, invalidated, delta, p1, refresh, p2, c1, dropped, id);
    }
    FreshRowsIs(program, reached, full, StoreRows(patched));
    FreshIs(program, reached, full, c1);
  }

  lemma FreshRowsIs(program: Program, reached: set<SymbolID>, full: set<SymbolID>, rows: seq<Row<SymbolBody>>)
    requires Sorted(rows) && forall id :: Find(rows, id) == if id in reached then Some(Fresh(program, full, id)) else None
    ensures FreshRows(program, reached, full, rows)
  {
    hide Sorted, Find, Fresh;
  }

  lemma PatchedParts(store: Store, patched: Store, patches: Patches)
    requires PatchedStore(store, patched, patches, {})
    ensures StoreValid(patched) && Sorted(StoreRows(patched))
    ensures forall id :: Find(StoreRows(patched), id) == Slot(StoreRows(store), patches, {}, id)
  {
  }
}
