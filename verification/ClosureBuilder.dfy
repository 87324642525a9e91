/** The producer's symbol closure (internal/typefacts/symbol_closure.go): the worklist,
the two fixed points, the reference lists, and the two fast paths that patch the
preceding generation's store. */
module ClosureBuilders {
  import opened Order
  import opened SortedRows
  import opened Facts
  import opened SymbolPrograms
  import opened SymbolStores
  import opened SymbolStorePatches
  import opened SymbolOrders
  import opened ClosureReferences
  import opened ClosurePatches
  import opened ClosureStables

  // --- draining the worklist ---

  function AliasTargets(program: Program): set<SymbolID> {
    set id | id in program.facts :: program.facts[id].aliasTarget
  }

  ghost predicate Drained(program: Program, seeds: set<SymbolID>, queue: seq<SymbolID>, n: nat) {
    && n <= |queue| && Distinct(queue) && "" !in queue
    && seeds <= SetOf(queue) <= seeds + AliasTargets(program)
    && Within(program, seeds, SetOf(queue))
    && (forall k :: 0 <= k < n && AliasOf(program, queue[k]) != "" ==> AliasOf(program, queue[k]) in queue)
  }

  function Enqueued(queue: seq<SymbolID>, id: SymbolID): seq<SymbolID> {
    if id == "" || id in queue then queue else queue + [id]
  }

  lemma DrainStart(program: Program, queue: seq<SymbolID>)
    requires Distinct(queue) && "" !in queue
    ensures Drained(program, SetOf(queue), queue, 0)
  {
  }

  lemma DrainStep(program: Program, seeds: set<SymbolID>, queue: seq<SymbolID>, n: nat)
    requires Drained(program, seeds, queue, n) && n < |queue|
    ensures Drained(program, seeds, Enqueued(queue, AliasOf(program, queue[n])), n + 1)
  {
    hide Within, AliasOf;
    var alias := AliasOf(program, queue[n]);
    AliasInTargets(program, queue[n]);
    if alias != "" && alias !in queue {
      assert SetOf(queue + [alias]) == SetOf(queue) + {alias};
      WithinStep(program, seeds, SetOf(queue), queue[n]);
    }
  }

  lemma AliasInTargets(program: Program, id: SymbolID)
    ensures AliasOf(program, id) == "" || AliasOf(program, id) in AliasTargets(program)
  {
  }

  lemma DrainEnd(program: Program, seeds: set<SymbolID>, queue: seq<SymbolID>)
    requires Drained(program, seeds, queue, |queue|)
    ensures LeastClosed(program, seeds, SetOf(queue))
  {
    hide Within, AliasOf;
    forall id | id in SetOf(queue) && AliasOf(program, id) != "" ensures AliasOf(program, id) in SetOf(queue) {
      var k :| 0 <= k < |queue| && queue[k] == id;
    }
  }

  /** A symbol enters the queue at most once and the universe is finite. */
  lemma DrainBound(program: Program, seeds: set<SymbolID>, queue: seq<SymbolID>, n: nat)
    requires Drained(program, seeds, queue, n)
    ensures |queue| <= |seeds + AliasTargets(program)|
  {
    hide Within, AliasOf, AliasTargets;
    DistinctSize(queue);
    SubsetCount(SetOf(queue), seeds + AliasTargets(program));
  }

  lemma ResolveNext(program: Program, queue: seq<SymbolID>, facts: seq<Row<SymbolBody>>, n: nat, fact: SymbolBody)
    requires Resolved(program, queue, facts, n) && n < |facts|
    requires fact == Bare(program, queue[n])
    ensures Resolved(program, queue, facts[n := Row(queue[n], fact)], n + 1)
  {
    hide Bare;
  }

  lemma ResolveAppend(program: Program, queue: seq<SymbolID>, facts: seq<Row<SymbolBody>>, fact: SymbolBody)
    requires Resolved(program, queue, facts, |facts|) && |facts| < |queue|
    requires fact == Bare(program, queue[|facts|])
    ensures Resolved(program, queue, facts + [Row(queue[|facts|], fact)], |facts| + 1)
  {
    hide Bare;
  }

  /** The row the preceding generation may lend. */
  ghost function CachedRow(store: Option<Store>, invalidated: set<SymbolID>, id: SymbolID): Option<SymbolBody> {
    if store.None? || id in invalidated then None
    else
      var found := Find(StoreRows(store.value), id);
      if found.Some? && Reusable(id, found.value) then found else None
  }

  ghost predicate StoreHolds(program: Program, store: Option<Store>, invalidated: set<SymbolID>) {
    store.Some? ==> StoreValid(store.value) && RetainedHold(program, StoreRows(store.value), invalidated)
  }

  lemma CachedIsCurrent(program: Program, store: Option<Store>, invalidated: set<SymbolID>, id: SymbolID)
    requires StoreHolds(program, store, invalidated) && CachedRow(store, invalidated, id).Some?
    ensures var fact := CachedRow(store, invalidated, id).value;
      SymbolBody(fact.aliasTarget, fact.declarations, []) == Bare(program, id)
  {
    hide StoreValid, StoreRows, Find, Reusable;
  }

  /** Symbols that were not recomputed were lent. */
  ghost predicate UnchangedLent(store: Option<Store>, invalidated: set<SymbolID>, ids: set<SymbolID>, changed: set<SymbolID>) {
    forall id :: id in ids && id !in changed ==> CachedRow(store, invalidated, id).Some?
  }

  ghost predicate QueueValid(queue: seq<SymbolID>, interner: Interner) {
    && Distinct(queue) && "" !in queue
    && InternerValid(interner) && (forall id :: id in queue ==> id in interner)
  }

  /** The generation a retained cache answers for: rows and lists agree with each other,
  and the contracts of invalidation and of the reference delta hold. */
  ghost predicate CacheHolds(program: Program, delta: Delta, store: Option<Store>, references: Option<References>, invalidated: set<SymbolID>) {
    && StoreHolds(program, store, invalidated)
    && (references.Some? ==> DeltaCovers(program, references.value, delta))
    && (store.Some? && references.Some? ==> RetainedPair(StoreRows(store.value), references.value))
  }

  /** The symbol rows a generation publishes. */
  ghost function Published(store: Option<Store>, facts: seq<Row<SymbolBody>>): seq<Row<SymbolBody>> {
    if store.Some? then StoreRows(store.value) else facts
  }

  class ClosureBuilder {
    var queue: seq<SymbolID>
    var interner: Interner
    var fullTier: set<SymbolID>
    var changed: set<SymbolID>
    var invalidated: set<SymbolID>
    var removalCandidates: set<SymbolID>
    var cachedStore: Option<Store>
    var cachedReferences: Option<References>
    var closedStore: Option<Store>
    var closedReferences: References

    constructor (store: Option<Store>, references: Option<References>, moved: set<SymbolID>, candidates: set<SymbolID>, handles: Interner)
      requires InternerValid(handles)
      ensures QueueValid(queue, interner) && queue == [] && fullTier == {} && changed == {} && interner == handles
      ensures cachedStore == store && cachedReferences == references && invalidated == moved && removalCandidates == candidates
      ensures closedStore == None && closedReferences == map[]
    {
      queue, interner, fullTier, changed := [], handles, {}, {};
      invalidated, removalCandidates := moved, candidates;
      cachedStore, cachedReferences := store, references;
      closedStore, closedReferences := None, map[];
    }

    /** `enqueueSymbol`: interned and queued once. */
    method EnqueueSymbol(id: SymbolID)
      requires QueueValid(queue, interner)
      modifies this`queue, this`interner
      ensures QueueValid(queue, interner) && queue == Enqueued(old(queue), id)
    {
      if id == "" { return; }
      if id !in interner { interner := interner[id := |interner|]; }
      if id in queue { return; }
      queue := queue + [id];
    }

    /** A demanded symbol; one demanded with references is also a full-tier seed. */
    method Demand(id: SymbolID, references: bool)
      requires QueueValid(queue, interner) && fullTier <= SetOf(queue)
      modifies this`queue, this`interner, this`fullTier
      ensures QueueValid(queue, interner) && queue == Enqueued(old(queue), id)
      ensures fullTier == old(fullTier) + (if references && id != "" then {id} else {})
      ensures fullTier <= SetOf(queue)
    {
      EnqueueSymbol(id);
      if references && id != "" { fullTier := fullTier + {id}; }
    }

    method CachedFact(id: SymbolID) returns (fact: Option<SymbolBody>)
      requires cachedStore.Some? ==> StoreValid(cachedStore.value)
      ensures fact == CachedRow(cachedStore, invalidated, id)
    {
      if id in invalidated || cachedStore.None? { return None; }
      var found := Get(cachedStore.value, id);
      if found.None? || !Reusable(id, found.value) { return None; }
      fact := found;
    }

    /** `ResolveAlias` and `Declarations` for a symbol nothing lends. */
    method Recompute(program: Program, id: SymbolID) returns (fact: SymbolBody)
      requires QueueValid(queue, interner)
      modifies this`queue, this`interner, this`changed
      ensures QueueValid(queue, interner) && queue == Enqueued(old(queue), AliasOf(program, id))
      ensures fact == Bare(program, id) && changed == old(changed) + {id}
    {
      changed := changed + {id};
      EnqueueSymbol(AliasOf(program, id));
      fact := SymbolBody(AliasOf(program, id), FactOf(program, id).declarations, []);
    }

    /** The demanded symbols whose facts the preceding generation lends. */
    method LendInitial() returns (cached: seq<bool>, lent: seq<SymbolBody>)
      requires cachedStore.Some? ==> StoreValid(cachedStore.value)
      ensures |cached| == |queue| && |lent| == |queue|
      ensures forall k :: 0 <= k < |queue| ==> LentAt(cachedStore, invalidated, queue[k], cached[k], lent[k])
    {
      hide *;
      var initial := |queue|;
      cached, lent := seq(initial, _ => false), seq(initial, _ => SymbolBody("", [], []));
      for index := 0 to initial
        invariant |cached| == initial && |lent| == initial
        invariant forall k :: index <= k < initial ==> !cached[k]
        invariant forall k :: 0 <= k < index ==> LentAt(cachedStore, invalidated, queue[k], cached[k], lent[k])
      {
        var retained := CachedFact(queue[index]);
        if retained.Some? {
          lent := lent[index := SymbolBody(retained.value.aliasTarget, retained.value.declarations, [])];
          cached := cached[index := true];
        }
        LentIs(cachedStore, invalidated, queue[index], retained);
      }
    }

    /** Every reached symbol gets its alias target, which is enqueued, and its declarations. */
    method DrainFacts(program: Program) returns (facts: seq<Row<SymbolBody>>)
      requires QueueValid(queue, interner) && StoreHolds(program, cachedStore, invalidated)
      modifies this`queue, this`interner, this`changed
      ensures QueueValid(queue, interner) && LeastClosed(program, old(SetOf(queue)), SetOf(queue))
      ensures |facts| == |queue| && Resolved(program, queue, facts, |queue|)
      ensures old(changed) <= changed
      ensures UnchangedLent(cachedStore, invalidated, SetOf(queue), changed)
    {
      hide *;
      ghost var seeds := SetOf(queue);
      StoreHoldsParts(program, cachedStore, invalidated);
      QueueIs(queue, interner);
      ghost var first := queue;
      DrainStart(program, queue);
      var initial := |queue|;
      var cached, lent := LendInitial();
      var ids := queue;
      facts := seq(initial, index requires 0 <= index < initial => Row(ids[index], lent[index]));
      ResolvedNone(program, queue, facts);
      LentNone(cachedStore, invalidated, queue, changed);
      for index := 0 to initial
        invariant QueueValid(queue, interner) && initial <= |queue| && queue[..initial] == first
        invariant Drained(program, seeds, queue, index)
        invariant |facts| == initial && Resolved(program, queue, facts, index)
        invariant forall k :: index <= k < initial ==> facts[k].value == lent[k]
        invariant old(changed) <= changed && UnchangedLent(cachedStore, invalidated, SetOf(queue[..index]), changed)
      {
        var id := queue[index];
        assert first[index] == id;
        DrainStep(program, seeds, queue, index);
        QueueIs(queue, interner);
        LentUse(program, cachedStore, invalidated, id, cached[index], lent[index]);
        LentNext(cachedStore, invalidated, queue, index, changed);
        GrowResolved(program, queue, AliasOf(program, id), facts, index);
        if cached[index] {
          EnqueueSymbol(facts[index].value.aliasTarget);
          ResolveNext(program, queue, facts, index, lent[index]);
          facts := facts[index := Row(id, lent[index])];
        } else {
          var fact := Recompute(program, id);
          ResolveNext(program, queue, facts, index, fact);
          facts := facts[index := Row(id, fact)];
        }
        QueueIs(queue, interner);
      }
      var index := initial;
      while index < |queue|
        invariant QueueValid(queue, interner) && index <= |queue|
        invariant Drained(program, seeds, queue, index)
        invariant |facts| == index && Resolved(program, queue, facts, index)
        invariant old(changed) <= changed && UnchangedLent(cachedStore, invalidated, SetOf(queue[..index]), changed)
        decreases |seeds + AliasTargets(program)| - index
      {
        DrainBound(program, seeds, queue, index);
        var id := queue[index];
        DrainStep(program, seeds, queue, index);
        QueueIs(queue, interner);
        LentNext(cachedStore, invalidated, queue, index, changed);
        GrowResolved(program, queue, AliasOf(program, id), facts, index);
        var retained := CachedFact(id);
        LentIs(cachedStore, invalidated, id, retained);
        var fact := SymbolBody("", [], []);
        if retained.Some? {
          fact := SymbolBody(retained.value.aliasTarget, retained.value.declarations, []);
          LentUse(program, cachedStore, invalidated, id, true, fact);
          EnqueueSymbol(fact.aliasTarget);
        } else {
          fact := Recompute(program, id);
        }
        ResolveAppend(program, queue, facts, fact);
        facts := facts + [Row(id, fact)];
        QueueIs(queue, interner);
        index := index + 1;
      }
      assert queue[..index] == queue;
      DrainEnd(program, seeds, queue);
      QueueIs(queue, interner);
    }

    /** `closeSymbols`: whether it patches the preceding store or rebuilds, what it publishes is
    a from-scratch closure of the program, in canonical order. */
    method CloseSymbols(program: Program, delta: Delta) returns (facts: seq<Row<SymbolBody>>)
      requires QueueValid(queue, interner) && CacheHolds(program, delta, cachedStore, cachedReferences, invalidated) && fullTier <= SetOf(queue) && closedStore == None
      modifies this`queue, this`interner, this`changed, this`fullTier, this`cachedReferences, this`closedStore, this`closedReferences
      ensures LeastClosed(program, old(SetOf(queue)), SetOf(queue))
      ensures LeastClosed(program, old(fullTier), fullTier)
      ensures closedStore.Some? ==> StoreValid(closedStore.value)
      ensures FreshRows(program, SetOf(queue), fullTier, Published(closedStore, facts))
      ensures FreshReferences(program, SetOf(queue), fullTier, closedReferences)
    {
      hide *;
      CacheParts(program, delta, cachedStore, cachedReferences, invalidated);
      var drained := DrainFacts(program);
      DrainedBare(program, queue, interner, drained);
      ghost var reached := SetOf(queue);
      LeastClosedParts(program, old(SetOf(queue)), reached);
      fullTier := PropagateFullTier(program, reached, drained, fullTier);
      if cachedStore.Some? && cachedReferences.Some? {
        LentSame(program, cachedStore, invalidated, reached, changed);
        var patched := PatchCanonical(
          program, drained, QueuedSymbols(queue), fullTier, changed, delta, cachedStore.value, cachedReferences.value, removalCandidates);
        changed := patched.changed;
        cachedReferences := Some(patched.references);
        if patched.store.Some? {
          closedStore := patched.store;
          closedReferences := patched.references;
          PublishedIs(closedStore, []);
          return [];
        }
      }
      var index := BuildIndex(drained, queue, interner);
      var rows, references := CloseReferences(program, reached, drained, fullTier, delta, cachedReferences);
      closedReferences := references;
      AssignedFresh(program, reached, drained, fullTier, references);
      AssignedKeys(drained, references);
      SameIndex(drained, rows, index[..], interner);
      facts := OrderSymbolFacts(rows, index, interner, cachedStore);
      PublishedIs(closedStore, facts);
    }

    /** `patchStableSymbolUniverse`: with unchanged root and reference-tier seeds, a success
    publishes exactly what a from-scratch closure of the program would. */
    method PatchStableSymbolUniverse(ghost before: Program, program: Program, ghost seeds: set<SymbolID>, ghost fullSeeds: set<SymbolID>,
        ghost reached: set<SymbolID>, delta: Delta, memoComplete: bool, expandedFullTier: Option<set<SymbolID>>)
      returns (ok: bool)
      requires cachedStore.Some? ==> StoreValid(cachedStore.value)
      requires Gate(memoComplete, expandedFullTier) ==>
        StableBase(before, program, reached, expandedFullTier.value, StoreRows(cachedStore.value), cachedReferences.value, invalidated, delta)
        && LeastClosed(before, seeds, reached) && LeastClosed(before, fullSeeds, expandedFullTier.value)
      modifies this`changed, this`fullTier, this`cachedReferences, this`closedStore, this`closedReferences
      ensures ok <==> old(Gate(memoComplete, expandedFullTier) && delta.exact && EdgesHeld(program, StoreRows(cachedStore.value), invalidated))
      ensures ok ==> LeastClosed(program, seeds, reached) && LeastClosed(program, fullSeeds, fullTier)
      ensures ok ==> closedStore.Some? && StoreValid(closedStore.value)
      ensures ok ==> FreshRows(program, reached, fullTier, StoreRows(closedStore.value))
      ensures ok ==> FreshReferences(program, reached, fullTier, closedReferences)
      ensures !ok ==> closedStore == old(closedStore) && fullTier == old(fullTier) && cachedReferences == old(cachedReferences)
    {
      if cachedStore.None? || cachedStore.value.length == 0 || cachedReferences.None? || !memoComplete || expandedFullTier.None? {
        return false;
      }
      hide *;
      ghost var full := expandedFullTier.value;
      var next, references, visited := PatchStable(
        before, program, reached, full, invalidated, delta, cachedStore.value, cachedReferences.value);
      changed := changed + visited;
      if next.None? { return false; }
      StableTiers(before, program, seeds, fullSeeds, reached, full, StoreRows(cachedStore.value), cachedReferences.value, invalidated, delta);
      fullTier := expandedFullTier.value;
      cachedReferences := Some(references);
      closedReferences := references;
      closedStore := next;
      ok := true;
    }

    predicate Gate(memoComplete: bool, expandedFullTier: Option<set<SymbolID>>)
      reads this`cachedStore, this`cachedReferences
    {
      cachedStore.Some? && cachedStore.value.length != 0 && cachedReferences.Some? && memoComplete && expandedFullTier.Some?
    }
  }

  lemma StableTiers(before: Program, program: Program, seeds: set<SymbolID>, fullSeeds: set<SymbolID>, reached: set<SymbolID>, full: set<SymbolID>,
      rows: seq<Row<SymbolBody>>, cached: References, invalidated: set<SymbolID>, delta: Delta)
    requires StableBase(before, program, reached, full, rows, cached, invalidated, delta)
    requires EdgesHeld(program, rows, invalidated)
    requires LeastClosed(before, seeds, reached) && LeastClosed(before, fullSeeds, full)
    ensures LeastClosed(program, seeds, reached) && LeastClosed(program, fullSeeds, full)
  {
    hide LeastClosed, FreshRows, FreshReferences, AliasOf, EdgesHeld;
    EdgesUnchanged(before, program, reached, full, rows, cached, invalidated, delta);
    StableEdges(before, program, seeds, reached);
    StableEdges(before, program, fullSeeds, full);
  }

  lemma CacheParts(program: Program, delta: Delta, store: Option<Store>, references: Option<References>, invalidated: set<SymbolID>)
    requires CacheHolds(program, delta, store, references, invalidated)
    ensures StoreHolds(program, store, invalidated) && (store.Some? ==> StoreValid(store.value))
    ensures references.Some? ==> DeltaCovers(program, references.value, delta)
    ensures store.Some? && references.Some? ==> RetainedPair(StoreRows(store.value), references.value)
  {
    hide StoreValid, RetainedHold, DeltaCovers, RetainedPair;
  }

  lemma PublishedIs(store: Option<Store>, facts: seq<Row<SymbolBody>>)
    ensures Published(store, facts) == if store.Some? then StoreRows(store.value) else facts
  {
  }

  function QueuedSymbols(queue: seq<SymbolID>): (reached: set<SymbolID>)
    ensures reached == SetOf(queue)
  {
    SetOf(queue)
  }

  lemma DrainedBare(program: Program, queue: seq<SymbolID>, interner: Interner, facts: seq<Row<SymbolBody>>)
    requires QueueValid(queue, interner) && |facts| == |queue| && Resolved(program, queue, facts, |queue|)
    ensures BareFacts(program, SetOf(queue), facts)
    ensures InternerValid(interner) && DistinctKeys(facts)
    ensures forall k :: 0 <= k < |facts| ==> facts[k].key == queue[k]
    ensures forall k :: 0 <= k < |queue| ==> queue[k] in interner
  {
    hide AliasOf, Bare;
    forall k | 0 <= k < |queue| ensures facts[k].key == queue[k] && queue[k] in queue && facts[k].value == Bare(program, facts[k].key) {
    }
    assert IDs(facts) == SetOf(queue);
  }

  lemma LeastClosedParts(program: Program, seeds: set<SymbolID>, s: set<SymbolID>)
    requires LeastClosed(program, seeds, s)
    ensures AliasClosed(program, s) && seeds <= s
  {
  }

  lemma LentSame(program: Program, store: Option<Store>, invalidated: set<SymbolID>, reached: set<SymbolID>, changed: set<SymbolID>)
    requires store.Some? && StoreHolds(program, store, invalidated) && UnchangedLent(store, invalidated, reached, changed)
    ensures forall id :: id in reached && id !in changed ==>
      Find(StoreRows(store.value), id).Some? && SameFact(program, id, Find(StoreRows(store.value), id).value)
  {
    hide StoreRows, StoreValid, Find, AliasOf;
    forall id | id in reached && id !in changed
      ensures Find(StoreRows(store.value), id).Some? && SameFact(program, id, Find(StoreRows(store.value), id).value)
    {
      assert CachedRow(store, invalidated, id).Some?;
    }
  }

  /** The handle-to-position index of the drained facts. */
  method BuildIndex(facts: seq<Row<SymbolBody>>, queue: seq<SymbolID>, interner: Interner) returns (index: array<nat>)
    requires InternerValid(interner) && DistinctKeys(facts) && |facts| == |queue|
    requires forall k :: 0 <= k < |facts| ==> facts[k].key == queue[k] && queue[k] in interner
    ensures fresh(index) && Indexed(facts, index[..], interner, {})
  {
    hide *;
    index := new nat[|interner|](_ => 0);
    assert index[..] == seq(|interner|, _ => 0);
    IndexStart(facts, interner);
    for k := 0 to |facts|
      invariant index.Length == |interner| && IndexedTo(facts, index[..], interner, k)
    {
      IndexNext(facts, index[..], interner, k);
      ghost var before := index[..];
      index[interner[queue[k]]] := k + 1;
      assert index[..] == before[interner[queue[k]] := k + 1];
    }
    IndexEnd(facts, index[..], interner);
  }

  /** The first `k` facts are indexed and nothing else is. */
  ghost predicate IndexedTo(facts: seq<Row<SymbolBody>>, index: seq<nat>, interner: Interner, k: nat)
    requires k <= |facts|
  {
    && |index| == |interner| && InternerValid(interner) && DistinctKeys(facts)
    && (forall i :: 0 <= i < |facts| ==> facts[i].key in interner)
    && (forall i :: 0 <= i < k ==> index[interner[facts[i].key]] == i + 1)
    && (forall h :: 0 <= h < |index| && index[h] != 0 ==> index[h] <= k && interner[facts[index[h] - 1].key] == h)
  }

  lemma IndexStart(facts: seq<Row<SymbolBody>>, interner: Interner)
    requires InternerValid(interner) && DistinctKeys(facts) && forall i :: 0 <= i < |facts| ==> facts[i].key in interner
    ensures IndexedTo(facts, seq(|interner|, _ => 0), interner, 0)
  {
  }

  lemma IndexNext(facts: seq<Row<SymbolBody>>, index: seq<nat>, interner: Interner, k: nat)
    requires k < |facts| && IndexedTo(facts, index, interner, k)
    ensures interner[facts[k].key] < |index|
    ensures IndexedTo(facts, index[interner[facts[k].key] := k + 1], interner, k + 1)
  {
  }

  lemma IndexEnd(facts: seq<Row<SymbolBody>>, index: seq<nat>, interner: Interner)
    requires IndexedTo(facts, index, interner, |facts|)
    ensures Indexed(facts, index, interner, {})
  {
    forall h | 0 <= h < |index| && index[h] != 0 ensures Holds(facts, index, interner, h) {
    }
  }

  lemma AssignedKeys(facts: seq<Row<SymbolBody>>, references: References)
    ensures |Assigned(facts, references)| == |facts|
    ensures forall k :: 0 <= k < |facts| ==> Assigned(facts, references)[k].key == facts[k].key
  {
  }

  /** The index speaks of IDs only. */
  lemma SameIndex(facts: seq<Row<SymbolBody>>, rows: seq<Row<SymbolBody>>, index: seq<nat>, interner: Interner)
    requires Indexed(facts, index, interner, {}) && |rows| == |facts|
    requires forall k :: 0 <= k < |facts| ==> rows[k].key == facts[k].key
    ensures Indexed(rows, index, interner, {})
  {
    forall h | 0 <= h < |index| && index[h] != 0 ensures Holds(rows, index, interner, h) {
      assert Holds(facts, index, interner, h);
    }
  }

  // --- facts the drain loops share ---

  lemma QueueIs(queue: seq<SymbolID>, interner: Interner)
    ensures QueueValid(queue, interner) <==> (Distinct(queue) && "" !in queue
      && InternerValid(interner) && (forall id :: id in queue ==> id in interner))
  {
  }

  lemma StoreHoldsParts(program: Program, store: Option<Store>, invalidated: set<SymbolID>)
    requires StoreHolds(program, store, invalidated)
    ensures store.Some? ==> StoreValid(store.value)
  {
  }

  ghost predicate LentAt(store: Option<Store>, invalidated: set<SymbolID>, id: SymbolID, cached: bool, lent: SymbolBody) {
    var row := CachedRow(store, invalidated, id);
    cached == row.Some? && (cached ==> lent == SymbolBody(row.value.aliasTarget, row.value.declarations, []))
  }

  lemma LentIs(store: Option<Store>, invalidated: set<SymbolID>, id: SymbolID, retained: Option<SymbolBody>)
    requires retained == CachedRow(store, invalidated, id)
    ensures retained.None? ==> forall fact :: LentAt(store, invalidated, id, false, fact)
    ensures retained.Some? ==>
      LentAt(store, invalidated, id, true, SymbolBody(retained.value.aliasTarget, retained.value.declarations, []))
  {
    hide CachedRow;
  }

  lemma LentUse(program: Program, store: Option<Store>, invalidated: set<SymbolID>, id: SymbolID, cached: bool, lent: SymbolBody)
    requires StoreHolds(program, store, invalidated) && LentAt(store, invalidated, id, cached, lent)
    ensures cached ==> lent == Bare(program, id) && lent.aliasTarget == AliasOf(program, id)
    ensures cached ==> CachedRow(store, invalidated, id).Some?
  {
    hide CachedRow, StoreHolds;
    if cached { CachedIsCurrent(program, store, invalidated, id); }
  }

  lemma ResolvedNone(program: Program, queue: seq<SymbolID>, facts: seq<Row<SymbolBody>>)
    requires |facts| <= |queue|
    ensures Resolved(program, queue, facts, 0)
  {
  }

  lemma LentNone(store: Option<Store>, invalidated: set<SymbolID>, queue: seq<SymbolID>, changed: set<SymbolID>)
    ensures UnchangedLent(store, invalidated, SetOf(queue[..0]), changed)
  {
  }

  lemma LentNext(store: Option<Store>, invalidated: set<SymbolID>, queue: seq<SymbolID>, n: nat, changed: set<SymbolID>)
    requires n < |queue| && UnchangedLent(store, invalidated, SetOf(queue[..n]), changed)
    ensures forall more: SymbolID :: n + 1 <= |Enqueued(queue, more)| && Enqueued(queue, more)[..n + 1] == queue[..n + 1]
    ensures UnchangedLent(store, invalidated, SetOf(queue[..n + 1]), changed + {queue[n]})
    ensures CachedRow(store, invalidated, queue[n]).Some? ==> UnchangedLent(store, invalidated, SetOf(queue[..n + 1]), changed)
  {
    hide CachedRow;
    assert queue[..n + 1] == queue[..n] + [queue[n]];
  }

  lemma GrowResolved(program: Program, queue: seq<SymbolID>, alias: SymbolID, facts: seq<Row<SymbolBody>>, n: nat)
    requires Resolved(program, queue, facts, n)
    ensures Resolved(program, Enqueued(queue, alias), facts, n)
    ensures |queue| <= |Enqueued(queue, alias)| && Enqueued(queue, alias)[..|queue|] == queue
  {
    hide Bare;
  }
}
