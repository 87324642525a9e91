/** The patch of the preceding symbol store by a closure with new seeds (internal/typefacts/symbol_closure.go). */
module ClosurePatches {
  import opened Order
  import opened SortedRows
  import opened Facts
  import opened SymbolPrograms
  import opened SymbolStores
  import opened SymbolStorePatches
  import opened ClosureReferences

  /** The retained store and the retained lists say the same. */
  ghost predicate RetainedPair(rows: seq<Row<SymbolBody>>, references: References) {
    && (forall id :: id in references ==> Find(rows, id).Some? && Find(rows, id).value.aliasTarget == "")
    && (forall id :: id in references ==> Find(rows, id).value.references == references[id])
    && (forall id :: Find(rows, id).Some? && id !in references ==> Find(rows, id).value.references == [])
  }

  /** An unexplained reference-tier change sends the generation down the general path. */
  ghost predicate Explained(facts: seq<Row<SymbolBody>>, full: set<SymbolID>, cached: References, changed: set<SymbolID>) {
    forall k :: 0 <= k < |facts| ==> (IsEligible(facts[k], full) <==> facts[k].key in cached) || facts[k].key in changed
  }

  method ExplainedTier(facts: seq<Row<SymbolBody>>, full: set<SymbolID>, cached: References, changed: set<SymbolID>) returns (ok: bool)
    ensures ok <==> Explained(facts, full, cached, changed)
  {
    for k := 0 to |facts|
      invariant forall i :: 0 <= i < k ==> (IsEligible(facts[i], full) <==> facts[i].key in cached) || facts[i].key in changed
    {
      if IsEligible(facts[k], full) != (facts[k].key in cached) {
        if facts[k].key !in changed { return false; }
      }
    }
    ok := true;
  }

  /** A recomputed row with the references it had. */
  function Carried(program: Program, rows: seq<Row<SymbolBody>>, id: SymbolID): SymbolBody {
    Bare(program, id).(references := if Find(rows, id).Some? then Find(rows, id).value.references else [])
  }

  /** The recomputed rows, carrying the references they had. */
  ghost predicate ChangedPatches(program: Program, reached: set<SymbolID>, changed: set<SymbolID>, rows: seq<Row<SymbolBody>>, patches: Patches) {
    && patches.Keys == reached * changed
    && (forall id :: id in patches ==> patches[id] == Carried(program, rows, id))
  }

  method PatchChanged(program: Program, ghost reached: set<SymbolID>, facts: seq<Row<SymbolBody>>, changed: set<SymbolID>, store: Store)
    returns (patches: Patches)
    requires BareFacts(program, reached, facts) && StoreValid(store)
    ensures ChangedPatches(program, reached, changed, StoreRows(store), patches)
  {
    hide *;
    patches := map[];
    BareIDs(program, reached, facts, 0);
    for k := 0 to |facts|
      invariant patches.Keys == IDs(facts[..k]) * changed
      invariant forall id :: id in patches ==> patches[id] == Carried(program, StoreRows(store), id)
    {
      BareAt(program, reached, facts, k);
      BareIDs(program, reached, facts, k);
      var fact := facts[k].value;
      if facts[k].key in changed {
        var retained := Get(store, facts[k].key);
        if retained.Some? { fact := fact.(references := retained.value.references); }
        CarriedIs(program, StoreRows(store), facts[k].key);
        patches := patches[facts[k].key := fact];
      }
    }
    assert facts[..|facts|] == facts;
    BareAll(program, reached, facts);
    PatchedIs(program, reached, changed, StoreRows(store), patches);
  }

  lemma CarriedIs(program: Program, rows: seq<Row<SymbolBody>>, id: SymbolID)
    ensures Find(rows, id).None? ==> Carried(program, rows, id) == Bare(program, id)
    ensures Find(rows, id).Some? ==> Carried(program, rows, id) == Bare(program, id).(references := Find(rows, id).value.references)
  {
    hide Find, AliasOf;
  }

  lemma BareIDs(program: Program, reached: set<SymbolID>, facts: seq<Row<SymbolBody>>, k: nat)
    requires k <= |facts|
    ensures IDs(facts[..0]) == {}
    ensures k < |facts| ==> IDs(facts[..k + 1]) == IDs(facts[..k]) + {facts[k].key}
  {
    if k < |facts| { assert facts[..k + 1] == facts[..k] + [facts[k]]; }
  }

  lemma BareAll(program: Program, reached: set<SymbolID>, facts: seq<Row<SymbolBody>>)
    requires BareFacts(program, reached, facts)
    ensures IDs(facts) == reached
  {
  }

  lemma PatchedIs(program: Program, reached: set<SymbolID>, changed: set<SymbolID>, rows: seq<Row<SymbolBody>>, patches: Patches)
    requires patches.Keys == reached * changed
    requires forall id :: id in patches ==> patches[id] == Carried(program, rows, id)
    ensures ChangedPatches(program, reached, changed, rows, patches)
  {
  }

  /** A changed symbol's row: patched, or retained. */
  function Known(rows: seq<Row<SymbolBody>>, patches: Patches, id: SymbolID): Option<SymbolBody> {
    if id in patches then Some(patches[id]) else Find(rows, id)
  }

  predicate Ineligible(known: Option<SymbolBody>, full: set<SymbolID>, id: SymbolID) {
    known.Some? && !(known.value.aliasTarget == "" && id in full)
  }

  /** Changed symbols that are no longer due a list lose it; those newly due one are refreshed. */
  ghost predicate Retiered(rows: seq<Row<SymbolBody>>, full: set<SymbolID>, done: set<SymbolID>,
      patches: Patches, cached: References, next: Patches, kept: References, refresh: set<SymbolID>) {
    forall id :: RetieredAt(rows, full, id in done, patches, cached, next, kept, refresh, id)
  }

  ghost predicate RetieredAt(rows: seq<Row<SymbolBody>>, full: set<SymbolID>, done: bool,
      patches: Patches, cached: References, next: Patches, kept: References, refresh: set<SymbolID>, id: SymbolID) {
    var dropped := done && Ineligible(Known(rows, patches, id), full, id);
    && (id in next <==> id in patches || dropped)
    && (id in next ==> next[id] == RetieredRow(rows, full, done, patches, id))
    && (id in kept <==> id in cached && !dropped)
    && (id in kept ==> kept[id] == cached[id])
    && (id in refresh <==> done && NewlyDue(rows, full, patches, cached, id))
  }

  function RetieredRow(rows: seq<Row<SymbolBody>>, full: set<SymbolID>, done: bool, patches: Patches, id: SymbolID): SymbolBody
    requires Known(rows, patches, id).Some?
  {
    var known := Known(rows, patches, id).value;
    if done && Ineligible(Some(known), full, id) then known.(references := []) else known
  }

  predicate NewlyDue(rows: seq<Row<SymbolBody>>, full: set<SymbolID>, patches: Patches, cached: References, id: SymbolID) {
    Known(rows, patches, id).Some? && !Ineligible(Known(rows, patches, id), full, id) && id !in cached
  }

  method Retier(full: set<SymbolID>, changed: set<SymbolID>, store: Store, patches: Patches, cached: References)
    returns (next: Patches, kept: References, refresh: set<SymbolID>)
    requires StoreValid(store)
    ensures Retiered(StoreRows(store), full, changed, patches, cached, next, kept, refresh)
  {
    hide *;
    next, kept, refresh := patches, cached, {};
    RetierStart(StoreRows(store), full, patches, cached);
    var remaining := changed;
    ghost var done: set<SymbolID> := {};
    while remaining != {}
      invariant done !! remaining && done + remaining == changed
      invariant Retiered(StoreRows(store), full, done, patches, cached, next, kept, refresh)
      decreases |remaining|
    {
      var id :| id in remaining;
      remaining := remaining - {id};
      RetierStep(StoreRows(store), full, done, patches, cached, next, kept, refresh, id);
      done := done + {id};
      var fact := Get(store, id);
      if id in next { fact := Some(next[id]); }
      if fact.Some? {
        if fact.value.aliasTarget == "" && id in full {
          if id !in kept { refresh := refresh + {id}; }
        } else {
          next := next[id := fact.value.(references := [])];
          kept := kept - {id};
        }
      }
    }
    assert done == changed;
  }

  lemma RetierStart(rows: seq<Row<SymbolBody>>, full: set<SymbolID>, patches: Patches, cached: References)
    ensures Retiered(rows, full, {}, patches, cached, patches, cached, {})
  {
    hide Find;
  }

  lemma RetierStep(rows: seq<Row<SymbolBody>>, full: set<SymbolID>, done: set<SymbolID>, patches: Patches, cached: References,
      next: Patches, kept: References, refresh: set<SymbolID>, id: SymbolID)
    requires Retiered(rows, full, done, patches, cached, next, kept, refresh) && id !in done
    ensures var fact := if id in next then Some(next[id]) else Find(rows, id);
      var skip := fact.None?;
      var due := fact.Some? && fact.value.aliasTarget == "" && id in full;
      Retiered(rows, full, done + {id}, patches, cached,
        if skip || due then next else next[id := fact.value.(references := [])],
        if skip || due then kept else kept - {id},
        if due && id !in kept then refresh + {id} else refresh)
  {
    hide Find;
    var fact := if id in next then Some(next[id]) else Find(rows, id);
    var skip := fact.None?;
    var due := fact.Some? && fact.value.aliasTarget == "" && id in full;
    var next' := if skip || due then next else next[id := fact.value.(references := [])];
    var kept' := if skip || due then kept else kept - {id};
    var refresh' := if due && id !in kept then refresh + {id} else refresh;
    forall k ensures RetieredAt(rows, full, k in done + {id}, patches, cached, next', kept', refresh', k) {
      assert RetieredAt(rows, full, k in done, patches, cached, next, kept, refresh, k);
    }
  }

  /** The refreshed lists land in the patches and in the retained map. */
  ghost predicate Refreshed(program: Program, rows: seq<Row<SymbolBody>>, done: set<SymbolID>,
      patches: Patches, cached: References, next: Patches, kept: References) {
    forall id :: RefreshedAt(program, rows, id in done, patches, cached, next, kept, id)
  }

  ghost predicate RefreshedAt(program: Program, rows: seq<Row<SymbolBody>>, done: bool,
      patches: Patches, cached: References, next: Patches, kept: References, id: SymbolID) {
    var read := done && Known(rows, patches, id).Some?;
    && (id in next <==> id in patches || read)
    && (id in next ==> next[id] == RefreshedRow(program, rows, done, patches, id))
    && (id in kept <==> id in cached || read)
    && (id in kept ==> kept[id] == if read then FactOf(program, id).references else cached[id])
  }

  function RefreshedRow(program: Program, rows: seq<Row<SymbolBody>>, done: bool, patches: Patches, id: SymbolID): SymbolBody
    requires Known(rows, patches, id).Some?
  {
    var known := Known(rows, patches, id).value;
    if done then known.(references := FactOf(program, id).references) else known
  }

  method Refresh(program: Program, store: Store, refresh: set<SymbolID>, patches: Patches, cached: References)
    returns (next: Patches, kept: References)
    requires StoreValid(store)
    ensures Refreshed(program, StoreRows(store), refresh, patches, cached, next, kept)
  {
    hide *;
    next, kept := patches, cached;
    RefreshStart(program, StoreRows(store), patches, cached);
    var remaining := refresh;
    ghost var done: set<SymbolID> := {};
    while remaining != {}
      invariant done !! remaining && done + remaining == refresh
      invariant Refreshed(program, StoreRows(store), done, patches, cached, next, kept)
      decreases |remaining|
    {
      var id :| id in remaining;
      remaining := remaining - {id};
      RefreshStep(program, StoreRows(store), done, patches, cached, next, kept, id);
      done := done + {id};
      var fact := Get(store, id);
      if id in next { fact := Some(next[id]); }
      if fact.Some? {
        next := next[id := fact.value.(references := FactOf(program, id).references)];
        kept := kept[id := FactOf(program, id).references];
      }
    }
    assert done == refresh;
  }

  lemma RefreshStart(program: Program, rows: seq<Row<SymbolBody>>, patches: Patches, cached: References)
    ensures Refreshed(program, rows, {}, patches, cached, patches, cached)
  {
    hide Find, FactOf;
  }

  lemma RefreshStep(program: Program, rows: seq<Row<SymbolBody>>, done: set<SymbolID>, patches: Patches, cached: References,
      next: Patches, kept: References, id: SymbolID)
    requires Refreshed(program, rows, done, patches, cached, next, kept) && id !in done
    ensures var fact := if id in next then Some(next[id]) else Find(rows, id);
      Refreshed(program, rows, done + {id}, patches, cached,
        if fact.None? then next else next[id := fact.value.(references := FactOf(program, id).references)],
        if fact.None? then kept else kept[id := FactOf(program, id).references])
  {
    hide Find, FactOf;
    var fact := if id in next then Some(next[id]) else Find(rows, id);
    var next' := if fact.None? then next else next[id := fact.value.(references := FactOf(program, id).references)];
    var kept' := if fact.None? then kept else kept[id := FactOf(program, id).references];
    forall k ensures RefreshedAt(program, rows, k in done + {id}, patches, cached, next', kept', k) {
      assert RefreshedAt(program, rows, k in done, patches, cached, next, kept, k);
    }
  }

  /** Rows identical to the retained ones are dropped so that their chunks stay shared. */
  method DropIdentical(store: Store, patches: Patches) returns (next: Patches)
    requires StoreValid(store)
    ensures forall id :: id in next <==> id in patches && Find(StoreRows(store), id) != Some(patches[id])
    ensures forall id :: id in next ==> next[id] == patches[id]
  {
    hide *;
    next := patches;
    var remaining := patches.Keys;
    while remaining != {}
      invariant remaining <= patches.Keys
      invariant forall id :: id in next <==> id in patches && (id in remaining || Find(StoreRows(store), id) != Some(patches[id]))
      invariant forall id :: id in next ==> next[id] == patches[id]
      decreases |remaining|
    {
      var id :| id in remaining;
      remaining := remaining - {id};
      var retained := Get(store, id);
      if retained == Some(patches[id]) { next := next - {id}; }
    }
  }

  /** Everything the final argument needs of the steps before `Patch`. */
  ghost predicate Prepared(program: Program, reached: set<SymbolID>, full: set<SymbolID>, changed: set<SymbolID>, delta: Delta,
      rows: seq<Row<SymbolBody>>, cached: References, patches: Patches, kept: References) {
    && full <= reached && delta.exact && delta.ids <= changed
    && RetainedPair(rows, cached) && DeltaCovers(program, cached, delta)
    && (forall id :: id in reached && id !in changed ==> Untouched(program, reached, full, rows, cached, id))
    && (forall id :: StepOK(program, reached, full, changed, delta, rows, cached, patches, kept, id))
  }

  ghost predicate Untouched(program: Program, reached: set<SymbolID>, full: set<SymbolID>, rows: seq<Row<SymbolBody>>,
      cached: References, id: SymbolID) {
    && Find(rows, id).Some? && SameFact(program, id, Find(rows, id).value)
    && (Eligible(program, reached, full, id) <==> id in cached)
  }

  /** One symbol's patch and retained list after the steps. */
  ghost predicate StepOK(program: Program, reached: set<SymbolID>, full: set<SymbolID>, changed: set<SymbolID>, delta: Delta,
      rows: seq<Row<SymbolBody>>, cached: References, patches: Patches, kept: References, id: SymbolID) {
    && (id in reached && id in changed ==> id in patches && patches[id] == Fresh(program, full, id))
    && (id in kept && id in changed ==> Eligible(program, reached, full, id))
    && (Eligible(program, reached, full, id) && id in changed ==> id in kept && kept[id] == FactOf(program, id).references)
    && (id !in changed ==> (id in kept <==> id in cached) && (id in kept ==> kept[id] == cached[id]))
    && (id in patches ==> id in changed && (id in reached || Find(rows, id).Some?))
    && (id in kept && id !in delta.ids ==> kept[id] == FactOf(program, id).references)
  }

  /** The chain of steps: recomputed rows, re-tiering, refresh. */
  lemma StepsPrepare(program: Program, reached: set<SymbolID>, facts: seq<Row<SymbolBody>>, full: set<SymbolID>,
      lent: set<SymbolID>, changed: set<SymbolID>, delta: Delta, rows: seq<Row<SymbolBody>>, cached: References,
      p1: Patches, p2: Patches, c1: References, r1: set<SymbolID>, p3: Patches, c2: References)
    requires BareFacts(program, reached, facts) && full <= reached && delta.exact && changed == lent + delta.ids
    requires RetainedPair(rows, cached) && DeltaCovers(program, cached, delta) && Explained(facts, full, cached, lent)
    requires forall id :: id in reached && id !in lent ==> Find(rows, id).Some? && SameFact(program, id, Find(rows, id).value)
    requires ChangedPatches(program, reached, changed, rows, p1)
    requires Retiered(rows, full, changed, p1, cached, p2, c1, r1)
    requires Refreshed(program, rows, r1 + (set id | id in delta.ids && id in c1), p2, c1, p3, c2)
    ensures Prepared(program, reached, full, changed, delta, rows, cached, p3, c2)
    ensures DeltaCovers(program, c2, delta)
  {
    hide *;
    forall id | id in reached && id !in changed ensures Untouched(program, reached, full, rows, cached, id) {
      ExplainedAt(program, reached, facts, full, cached, lent, id);
      UntouchedIs(program, reached, full, rows, cached, id);
    }
    forall id ensures StepOK(program, reached, full, changed, delta, rows, cached, p3, c2, id) {
      StepAt(program, reached, full, changed, delta, rows, cached, p1, p2, c1, r1, p3, c2, id);
    }
    PreparedIs(program, reached, full, changed, delta, rows, cached, p3, c2);
  }

  lemma UntouchedIs(program: Program, reached: set<SymbolID>, full: set<SymbolID>, rows: seq<Row<SymbolBody>>, cached: References, id: SymbolID)
    requires Find(rows, id).Some? && SameFact(program, id, Find(rows, id).value)
    requires Eligible(program, reached, full, id) <==> id in cached
    ensures Untouched(program, reached, full, rows, cached, id)
  {
    hide Find, SameFact, Eligible;
  }

  lemma PreparedIs(program: Program, reached: set<SymbolID>, full: set<SymbolID>, changed: set<SymbolID>, delta: Delta,
      rows: seq<Row<SymbolBody>>, cached: References, patches: Patches, kept: References)
    requires full <= reached && delta.exact && delta.ids <= changed
    requires RetainedPair(rows, cached) && DeltaCovers(program, cached, delta)
    requires forall id :: id in reached && id !in changed ==> Untouched(program, reached, full, rows, cached, id)
    requires forall id :: StepOK(program, reached, full, changed, delta, rows, cached, patches, kept, id)
    ensures Prepared(program, reached, full, changed, delta, rows, cached, patches, kept)
    ensures DeltaCovers(program, kept, delta)
  {
    hide RetainedPair, Untouched, Find, FactOf, Eligible;
    assert Prepared(program, reached, full, changed, delta, rows, cached, patches, kept);
    forall id | id in kept && id !in delta.ids ensures kept[id] == FactOf(program, id).references {
      assert StepOK(program, reached, full, changed, delta, rows, cached, patches, kept, id);
    }
  }

  lemma ExplainedAt(program: Program, reached: set<SymbolID>, facts: seq<Row<SymbolBody>>, full: set<SymbolID>,
      cached: References, changed: set<SymbolID>, id: SymbolID)
    requires BareFacts(program, reached, facts) && Explained(facts, full, cached, changed) && id in reached && id !in changed
    ensures Eligible(program, reached, full, id) <==> id in cached
  {
    hide AliasOf;
    assert id in IDs(facts);
    var k :| 0 <= k < |facts| && facts[k].key == id;
  }

  /** One symbol through all the steps. */
  lemma StepAt(program: Program, reached: set<SymbolID>, full: set<SymbolID>, changed: set<SymbolID>, delta: Delta,
      rows: seq<Row<SymbolBody>>, cached: References,
      p1: Patches, p2: Patches, c1: References, r1: set<SymbolID>, p3: Patches, c2: References, id: SymbolID)
    requires full <= reached && delta.exact && delta.ids <= changed
    requires RetainedPair(rows, cached) && DeltaCovers(program, cached, delta)
    requires ChangedPatches(program, reached, changed, rows, p1)
    requires Retiered(rows, full, changed, p1, cached, p2, c1, r1)
    requires Refreshed(program, rows, r1 + (set id | id in delta.ids && id in c1), p2, c1, p3, c2)
    ensures StepOK(program, reached, full, changed, delta, rows, cached, p3, c2, id)
  {
    hide Find, FactOf;
    var refresh := r1 + (set id | id in delta.ids && id in c1);
    assert RetieredAt(rows, full, id in changed, p1, cached, p2, c1, r1, id);
    assert RefreshedAt(program, rows, id in refresh, p2, c1, p3, c2, id);
  }

  ghost predicate RowsAre(program: Program, reached: set<SymbolID>, full: set<SymbolID>, rows: seq<Row<SymbolBody>>) {
    forall id :: Find(rows, id) == if id in reached then Some(Fresh(program, full, id)) else None
  }

  /** Every reached symbol's slot holds its fresh row. */
  lemma SlotFresh(program: Program, reached: set<SymbolID>, full: set<SymbolID>, changed: set<SymbolID>, delta: Delta,
      rows: seq<Row<SymbolBody>>, cached: References, patches: Patches, kept: References, dropped: Patches, removed: set<SymbolID>, id: SymbolID)
    requires Prepared(program, reached, full, changed, delta, rows, cached, patches, kept)
    requires forall k :: k in dropped <==> k in patches && Find(rows, k) != Some(patches[k])
    requires forall k :: k in dropped ==> dropped[k] == patches[k]
    requires id in reached && id !in removed
    ensures Slot(rows, dropped, removed, id) == Some(Fresh(program, full, id))
  {
    hide Find, FactOf;
    assert StepOK(program, reached, full, changed, delta, rows, cached, patches, kept, id);
    if id !in changed {
      assert Untouched(program, reached, full, rows, cached, id);
      assert Find(rows, id).value == Fresh(program, full, id);
    }
  }

  /** The retained map after the departed symbols leave it. */
  lemma KeptFresh(program: Program, reached: set<SymbolID>, full: set<SymbolID>, changed: set<SymbolID>, delta: Delta,
      rows: seq<Row<SymbolBody>>, cached: References, patches: Patches, kept: References, removed: set<SymbolID>, next: seq<Row<SymbolBody>>)
    requires Prepared(program, reached, full, changed, delta, rows, cached, patches, kept)
    requires removed !! reached
    requires forall id :: Find(next, id).Some? <==> id in reached
    requires forall id :: Find(rows, id).Some? && id !in removed ==> Find(next, id).Some?
    ensures FreshReferences(program, reached, full, kept - removed)
  {
    hide Find, FactOf;
    forall id ensures id in kept - removed <==> Eligible(program, reached, full, id) {
      assert StepOK(program, reached, full, changed, delta, rows, cached, patches, kept, id);
      assert id in reached && id !in changed ==> Untouched(program, reached, full, rows, cached, id);
    }
    forall id | id in kept - removed ensures kept[id] == FactOf(program, id).references {
      assert StepOK(program, reached, full, changed, delta, rows, cached, patches, kept, id);
    }
  }

  datatype Patched = Patched(store: Option<Store>, changed: set<SymbolID>, references: References, shared: nat)

  /** `patchCanonicalSymbolStore`: when it succeeds, the patched store holds exactly the
  reached universe, every row fresh; when it declines, the retained lists are still
  covered by the delta. */
  method PatchCanonical(program: Program, facts: seq<Row<SymbolBody>>, reached: set<SymbolID>, full: set<SymbolID>,
      changed: set<SymbolID>, delta: Delta, store: Store, cached: References, candidates: set<SymbolID>)
    returns (result: Patched)
    requires BareFacts(program, reached, facts) && full <= reached && StoreValid(store)
    requires RetainedPair(StoreRows(store), cached) && DeltaCovers(program, cached, delta)
    requires forall id :: id in reached && id !in changed ==>
      Find(StoreRows(store), id).Some? && SameFact(program, id, Find(StoreRows(store), id).value)
    ensures changed <= result.changed <= changed + delta.ids
    ensures DeltaCovers(program, result.references, delta)
    ensures result.store.Some? ==> StoreValid(result.store.value)
    ensures result.store.Some? ==> FreshRows(program, reached, full, StoreRows(result.store.value))
    ensures result.store.Some? ==> FreshReferences(program, reached, full, result.references)
  {
    hide *;
    result := Patched(None, changed, cached, 0);
    if store.length == 0 { return; }
    var explained := ExplainedTier(facts, full, cached, changed);
    if !explained { return; }
    if !delta.exact { return; }
    var known := changed + delta.ids;
    var p1 := PatchChanged(program, reached, facts, known, store);
    var p2, c1, r1 := Retier(full, known, store, p1, cached);
    var refresh := r1 + (set id | id in delta.ids && id in c1);
    var p3, c2 := Refresh(program, store, refresh, p2, c1);
    StepsPrepare(program, reached, facts, full, changed, known, delta, StoreRows(store), cached, p1, p2, c1, r1, p3, c2);
    var dropped := DropIdentical(store, p3);
    var next, shared, removed, complete := Patch(store, reached, dropped, candidates);
    result := Patched(None, known, c2, 0);
    if !complete { return; }
    CanonicalDone(program, reached, full, known, delta, store, cached, p3, c2, dropped, candidates, removed, next);
    CoversFewer(program, c2, delta, removed);
    result := Patched(Some(next), known, c2 - removed, shared);
  }

  lemma CoversFewer(program: Program, references: References, delta: Delta, removed: set<SymbolID>)
    requires DeltaCovers(program, references, delta)
    ensures DeltaCovers(program, references - removed, delta)
  {
    hide FactOf;
  }

  /** Completeness by counting. */
  lemma CanonicalDone(program: Program, reached: set<SymbolID>, full: set<SymbolID>, changed: set<SymbolID>, delta: Delta,
      store: Store, cached: References, patches: Patches, kept: References, dropped: Patches, candidates: set<SymbolID>,
      removed: set<SymbolID>, next: Store)
    requires Prepared(program, reached, full, changed, delta, StoreRows(store), cached, patches, kept)
    requires forall k :: k in dropped <==> k in patches && Find(StoreRows(store), k) != Some(patches[k])
    requires forall k :: k in dropped ==> dropped[k] == patches[k]
    requires removed == Departed(store, reached, candidates)
    requires PatchedStore(store, next, dropped, removed) && next.length == |reached|
    ensures StoreValid(next) && FreshRows(program, reached, full, StoreRows(next))
    ensures FreshReferences(program, reached, full, kept - removed)
  {
    hide Find, StoreRows, FactOf, Prepared, StoreValid, Fresh;
    var rows := StoreRows(store);
    assert removed !! reached;
    forall id | id in reached ensures Find(StoreRows(next), id) == Some(Fresh(program, full, id)) {
      SlotFresh(program, reached, full, changed, delta, rows, cached, patches, kept, dropped, removed, id);
    }
    CompleteByCounting(next, reached);
    NextSorted(next);
    KeptFresh(program, reached, full, changed, delta, rows, cached, patches, kept, removed, StoreRows(next));
  }

  lemma NextSorted(store: Store)
    requires StoreValid(store)
    ensures Sorted(StoreRows(store))
  {
  }
}
