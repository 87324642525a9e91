/** Patching the canonical symbol store (internal/typefacts/symbol_store.go): the chunks touched are copied
and the rest shared. */
module SymbolStorePatches {
  import opened Order
  import opened SortedRows
  import opened Facts
  import opened PackedIndexes
  import opened SymbolStores

  type Patches = map<SymbolID, SymbolBody>

  /** The row of an ID after a patch: removal first, then replacement or addition. */
  function Slot(rows: seq<Row<SymbolBody>>, patches: Patches, removed: set<SymbolID>, id: SymbolID): Option<SymbolBody> {
    if id in removed then None else if id in patches then Some(patches[id]) else Find(rows, id)
  }

  function Surviving(chunk: seq<Row<SymbolBody>>, patches: Patches, removed: set<SymbolID>, id: SymbolID): Option<SymbolBody> {
    if Find(chunk, id).Some? then Slot(chunk, patches, removed, id) else None
  }

  /** The library sort of rows with distinct IDs. */
  method SortByID(rows: seq<Row<SymbolBody>>) returns (ordered: seq<Row<SymbolBody>>)
    requires DistinctKeys(rows)
    ensures ordered == SortRows(rows)
  {
    ordered := SortRows(rows);
  }

  /** One chunk's surviving rows, in order, with their current values. */
  method PatchRows(chunk: seq<Row<SymbolBody>>, patches: Patches, removed: set<SymbolID>) returns (rows: seq<Row<SymbolBody>>)
    requires Sorted(chunk)
    ensures Sorted(rows)
    ensures forall id :: Find(rows, id) == Surviving(chunk, patches, removed, id)
  {
    hide *;
    rows := [];
    PatchRowsStart(chunk, patches, removed);
    for i := 0 to |chunk|
      invariant PatchedTo(chunk, patches, removed, i, rows)
    {
      PatchRowsStep(chunk, patches, removed, i, rows);
      var fact := chunk[i];
      if fact.key !in removed {
        if fact.key in patches { fact := Row(fact.key, patches[fact.key]); }
        rows := rows + [fact];
      }
    }
    PatchRowsEnd(chunk, patches, removed, rows);
  }

  ghost predicate PatchedTo(chunk: seq<Row<SymbolBody>>, patches: Patches, removed: set<SymbolID>, i: nat, rows: seq<Row<SymbolBody>>)
    requires i <= |chunk|
  {
    && Sorted(chunk) && Sorted(rows)
    && (i < |chunk| ==> forall k :: 0 <= k < |rows| ==> Less(rows[k].key, chunk[i].key))
    && (forall id :: Find(rows, id) == Surviving(chunk[..i], patches, removed, id))
  }

  lemma PatchRowsStart(chunk: seq<Row<SymbolBody>>, patches: Patches, removed: set<SymbolID>)
    requires Sorted(chunk)
    ensures PatchedTo(chunk, patches, removed, 0, [])
  {
    hide Less;
  }

  lemma PatchRowsEnd(chunk: seq<Row<SymbolBody>>, patches: Patches, removed: set<SymbolID>, rows: seq<Row<SymbolBody>>)
    requires PatchedTo(chunk, patches, removed, |chunk|, rows)
    ensures Sorted(rows)
    ensures forall id :: Find(rows, id) == Surviving(chunk, patches, removed, id)
  {
    hide Less, Find, Sorted;
    assert chunk[..|chunk|] == chunk;
  }

  lemma PatchRowsStep(chunk: seq<Row<SymbolBody>>, patches: Patches, removed: set<SymbolID>, i: nat, rows: seq<Row<SymbolBody>>)
    requires i < |chunk| && PatchedTo(chunk, patches, removed, i, rows)
    ensures var id := chunk[i].key;
      PatchedTo(chunk, patches, removed, i + 1,
        if id in removed then rows else rows + [Row(id, if id in patches then patches[id] else chunk[i].value)])
  {
    hide Less, Find;
    TotalOrder();
    var key := chunk[i].key;
    var row := Row(key, if key in patches then patches[key] else chunk[i].value);
    SortedAppend(rows, row);
    assert chunk[..i + 1] == chunk[..i] + [chunk[i]];
    forall id ensures Find(chunk[..i + 1], id) == (if id == key then Some(chunk[i].value) else Find(chunk[..i], id)) {
      FindAppend(chunk[..i], chunk[i], id);
    }
    forall id ensures Find(rows + [row], id) == (if id == key then Some(row.value) else Find(rows, id)) {
      FindAppend(rows, row, id);
    }
    BelowAbsent(chunk[..i], key);
  }

  /** The IDs a patch adds to one chunk. */
  ghost predicate AddedTo(store: Store, patches: Patches, done: set<SymbolID>, c: nat, rows: seq<Row<SymbolBody>>) {
    && DistinctKeys(rows)
    && (forall id :: Find(rows, id) == Added(store, patches, done, c, id))
  }

  function Added(store: Store, patches: Patches, done: set<SymbolID>, c: nat, id: SymbolID): Option<SymbolBody> {
    if id in done && id in patches && Find(StoreRows(store), id).None? && HomeOf(store.chunks, id) == c then Some(patches[id]) else None
  }

  function AdditionsAt(additions: map<nat, seq<Row<SymbolBody>>>, c: nat): seq<Row<SymbolBody>> {
    if c in additions then additions[c] else []
  }

  /** Every patched ID is sorted to its chunk; the ones not yet stored are additions. */
  method SortPatches(store: Store, patches: Patches) returns (additions: map<nat, seq<Row<SymbolBody>>>, affected: set<nat>)
    requires StoreValid(store) && store.chunks != []
    ensures forall c :: AddedTo(store, patches, patches.Keys, c, AdditionsAt(additions, c))
    ensures forall c :: c in affected <==> exists id :: id in patches && HomeOf(store.chunks, id) == c
  {
    hide *;
    additions, affected := map[], {};
    var remaining := patches.Keys;
    ghost var done: set<SymbolID> := {};
    NothingAdded(store, patches);
    while remaining != {}
      invariant done !! remaining && done + remaining == patches.Keys
      invariant forall c :: AddedTo(store, patches, done, c, AdditionsAt(additions, c))
      invariant affected == set id | id in done :: HomeOf(store.chunks, id)
      decreases |remaining|
    {
      var id :| id in remaining;
      remaining := remaining - {id};
      var existing := SymbolStores.Get(store, id);
      var c := ChunkFor(store, id);
      PatchAdded(store, patches, done, additions, id);
      if existing.None? {
        additions := additions[c := AdditionsAt(additions, c) + [Row(id, patches[id])]];
      }
      affected := affected + {c};
      done := done + {id};
    }
    assert done == patches.Keys;
  }

  lemma NothingAdded(store: Store, patches: Patches)
    ensures forall c :: AddedTo(store, patches, {}, c, AdditionsAt(map[], c))
  {
    hide Less, HomeOf;
  }

  lemma PatchAdded(store: Store, patches: Patches, done: set<SymbolID>, additions: map<nat, seq<Row<SymbolBody>>>, id: SymbolID)
    requires id in patches && id !in done
    requires forall c :: AddedTo(store, patches, done, c, AdditionsAt(additions, c))
    ensures var home, known := HomeOf(store.chunks, id), Find(StoreRows(store), id).Some?;
      var next := if known then additions else additions[home := AdditionsAt(additions, home) + [Row(id, patches[id])]];
      forall c :: AddedTo(store, patches, done + {id}, c, AdditionsAt(next, c))
  {
    hide HomeOf, Find, StoreRows, AddedTo;
    var home, known := HomeOf(store.chunks, id), Find(StoreRows(store), id).Some?;
    var next := if known then additions else additions[home := AdditionsAt(additions, home) + [Row(id, patches[id])]];
    forall c ensures AddedTo(store, patches, done + {id}, c, AdditionsAt(next, c)) {
      assert AddedTo(store, patches, done, c, AdditionsAt(additions, c));
      AddOne(store, patches, done, c, AdditionsAt(additions, c), id);
    }
  }

  lemma AddOne(store: Store, patches: Patches, done: set<SymbolID>, c: nat, rows: seq<Row<SymbolBody>>, id: SymbolID)
    requires id in patches && id !in done && AddedTo(store, patches, done, c, rows)
    ensures var added := Find(StoreRows(store), id).None? && HomeOf(store.chunks, id) == c;
      AddedTo(store, patches, done + {id}, c, if added then rows + [Row(id, patches[id])] else rows)
  {
    hide HomeOf, Find, StoreRows;
    var row := Row(id, patches[id]);
    FindAbsent(rows, id);
    forall k ensures Find(rows + [row], k) == if Find(rows, k).Some? then Find(rows, k) else if k == id then Some(row.value) else None {
      FindConcat(rows, [row], k);
      FindOne(row, k);
    }
    assert Find(rows, id).None?;
    forall i | 0 <= i < |rows| ensures rows[i].key != id {
      assert !HasKey(rows, id);
    }
  }

  lemma FindOne(row: Row<SymbolBody>, key: string)
    ensures Find([row], key) == if row.key == key then Some(row.value) else None
  {
    assert [row][1..] == [];
  }

  function SlotAt(store: Store, patches: Patches, removed: set<SymbolID>, here: bool, id: SymbolID): Option<SymbolBody> {
    if here then Slot(StoreRows(store), patches, removed, id) else None
  }

  /** The rows of one chunk after the patch: exactly the IDs at home there. */
  ghost predicate ChunkDone(store: Store, patches: Patches, removed: set<SymbolID>, c: nat, rows: seq<Row<SymbolBody>>) {
    && Sorted(rows)
    && (forall id :: Find(rows, id) == SlotAt(store, patches, removed, HomeOf(store.chunks, id) == c, id))
  }

  ghost predicate ChunksDone(store: Store, patches: Patches, removed: set<SymbolID>, c: nat, rows: seq<Row<SymbolBody>>) {
    && Sorted(rows)
    && (forall id :: Find(rows, id) == SlotAt(store, patches, removed, HomeOf(store.chunks, id) < c, id))
  }

  lemma InChunk(store: Store, c: nat, id: SymbolID)
    requires StoreValid(store) && c < |store.chunks|
    ensures Find(store.chunks[c], id) == if HomeOf(store.chunks, id) == c then Find(StoreRows(store), id) else None
    ensures Sorted(store.chunks[c])
  {
    hide *;
    StoreParts(store);
    LeafSorted(store.chunks, c);
    HomeIs(store.chunks, id);
    if HomeOf(store.chunks, id) == c {
      FindHome(store.chunks, id, c);
    } else {
      FindAbsent(store.chunks[c], id);
      forall k | 0 <= k < |store.chunks[c]| ensures store.chunks[c][k].key != id {
        RowHome(store.chunks, c, k);
        OtherHome(store.chunks, store.chunks[c][k].key, c, id);
      }
      NoKey(store.chunks[c], id);
    }
  }

  lemma OtherHome(chunks: Chunks, a: SymbolID, i: nat, b: SymbolID)
    requires LeavesFormed(chunks) && Home(chunks, a, i) && Home(chunks, b, HomeOf(chunks, b)) && HomeOf(chunks, b) != i
    ensures a != b
  {
    hide *;
    if a == b { HomeUnique(chunks, a, i, HomeOf(chunks, b)); }
  }

  lemma NoKey(rows: seq<Row<SymbolBody>>, id: SymbolID)
    requires forall k :: 0 <= k < |rows| ==> rows[k].key != id
    ensures !HasKey(rows, id)
  {
  }

  /** An untouched chunk is shared as it is. */
  lemma SharedChunk(store: Store, patches: Patches, removed: set<SymbolID>, c: nat)
    requires StoreValid(store) && c < |store.chunks|
    requires forall id :: id in patches || id in removed ==> HomeOf(store.chunks, id) != c
    ensures ChunkDone(store, patches, removed, c, store.chunks[c])
  {
    hide Sorted, StoreValid, HomeOf, StoreRows, Find;
    forall id ensures Find(store.chunks[c], id) == SlotAt(store, patches, removed, HomeOf(store.chunks, id) == c, id) {
      InChunk(store, c, id);
    }
    InChunk(store, c, "");
  }

  /** A touched chunk's rows, before sorting. */
  lemma TouchedChunk(store: Store, patches: Patches, removed: set<SymbolID>, c: nat,
      survivors: seq<Row<SymbolBody>>, added: seq<Row<SymbolBody>>)
    requires StoreValid(store) && c < |store.chunks|
    requires forall id :: id in removed ==> Find(StoreRows(store), id).Some?
    requires Sorted(survivors)
    requires forall id :: Find(survivors, id) == Surviving(store.chunks[c], patches, removed, id)
    requires AddedTo(store, patches, patches.Keys, c, added)
    ensures DistinctKeys(survivors + added)
    ensures ChunkDone(store, patches, removed, c, SortRows(survivors + added))
  {
    hide Sorted, StoreValid, HomeOf, StoreRows, Find, DistinctKeys;
    SortRowsMeaning(survivors + added);
    forall id ensures Find(SortRows(survivors + added), id) == SlotAt(store, patches, removed, HomeOf(store.chunks, id) == c, id) {
      InChunk(store, c, id);
      FindConcat(survivors, added, id);
    }
    forall id ensures Find(survivors, id).None? || Find(added, id).None? {
      InChunk(store, c, id);
    }
    DistinctConcat(survivors, added);
  }

  lemma DistinctConcat(left: seq<Row<SymbolBody>>, right: seq<Row<SymbolBody>>)
    requires Sorted(left) && DistinctKeys(right)
    requires forall id :: Find(left, id).None? || Find(right, id).None?
    ensures DistinctKeys(left + right)
  {
    hide Less, Find;
    var rows := left + right;
    forall i, j | 0 <= i < j < |rows| ensures rows[i].key != rows[j].key {
      if j < |left| {
        assert Less(left[i].key, left[j].key);
        LessIrreflexive(left[i].key);
      } else if i < |left| {
        FindAt(left, i);
        FindDistinct(right, j - |left|);
      }
    }
  }

  lemma JoinChunk(store: Store, patches: Patches, removed: set<SymbolID>, c: nat, rows: seq<Row<SymbolBody>>, chunk: seq<Row<SymbolBody>>)
    requires StoreValid(store) && c < |store.chunks|
    requires ChunksDone(store, patches, removed, c, rows) && ChunkDone(store, patches, removed, c, chunk)
    ensures ChunksDone(store, patches, removed, c + 1, rows + chunk)
  {
    hide StoreValid, HomeOf, StoreRows, Find, Less, Sorted, Slot;
    forall i, j | 0 <= i < |rows| && 0 <= j < |chunk| ensures Less(rows[i].key, chunk[j].key) {
      FindAt(rows, i);
      FindAt(chunk, j);
      StoreParts(store);
      HomeIs(store.chunks, rows[i].key);
      HomeIs(store.chunks, chunk[j].key);
      HomeOrder(store.chunks, rows[i].key, HomeOf(store.chunks, rows[i].key), chunk[j].key, c);
    }
    SortedConcat(rows, chunk);
    forall id ensures Find(rows + chunk, id) == SlotAt(store, patches, removed, HomeOf(store.chunks, id) < c + 1, id) {
      FindConcat(rows, chunk, id);
    }
  }

  /** What a patch promises of the store it returns. */
  ghost predicate PatchedStore(store: Store, next: Store, patches: Patches, removed: set<SymbolID>) {
    && StoreValid(next)
    && (forall id :: Find(StoreRows(next), id) == Slot(StoreRows(store), patches, removed, id))
  }

  ghost predicate UntouchedShared(store: Store, next: Store, affected: set<nat>, shared: nat) {
    && (forall c :: 0 <= c < |store.chunks| && c !in affected ==> store.chunks[c] in next.chunks)
    && shared == |Unaffected(|store.chunks|, affected)|
  }

  function Unaffected(n: nat, affected: set<nat>): set<nat> {
    set c: nat | c < n && c !in affected
  }

  lemma CountUnaffected(n: nat, affected: set<nat>)
    ensures |Unaffected(n + 1, affected)| == |Unaffected(n, affected)| + (if n in affected then 0 else 1)
    ensures Unaffected(0, affected) == {}
  {
    assert Unaffected(n + 1, affected) == Unaffected(n, affected) + (if n in affected then {} else {n});
  }

  ghost function Touched(store: Store, patches: Patches, removed: set<SymbolID>): set<nat> {
    set id | id in patches.Keys + removed :: HomeOf(store.chunks, id)
  }

  /** The departed candidates. */
  function Departed(store: Store, present: set<SymbolID>, candidates: set<SymbolID>): set<SymbolID> {
    set id | id in candidates && id !in present && Find(StoreRows(store), id).Some?
  }

  /** `Patch`: the next store holds exactly the patched slots; chunks counted as shared
  are the previous ones; the store is complete when its size is the present universe's. */
  method Patch(store: Store, present: set<SymbolID>, patches: Patches, candidates: set<SymbolID>)
    returns (next: Store, shared: nat, removed: set<SymbolID>, complete: bool)
    requires StoreValid(store)
    ensures removed == Departed(store, present, candidates)
    ensures PatchedStore(store, next, patches, removed)
    ensures store.chunks != [] ==> UntouchedShared(store, next, Touched(store, patches, removed), shared)
    ensures complete <==> next.length == |present|
  {
    hide *;
    if store.chunks == [] {
      var facts := PatchFacts(patches);
      var ordered := SortByID(facts);
      SortRowsMeaning(facts);
      next := NewStore(ordered);
      EmptyPatched(store, next, present, patches, candidates);
      return next, 0, {}, next.length == |present|;
    }
    var additions, affected := SortPatches(store, patches);
    var gone, touched := FindDeparted(store, present, candidates);
    removed := gone;
    affected := affected + touched;
    DepartedIs(store, present, candidates, removed);
    TouchedIs(store, patches, removed, affected);
    var chunks, length: nat, same := BuildChunks(store, patches, removed, additions, affected);
    next := Store(chunks, length);
    PatchDone(store, patches, removed, next);
    shared := same;
    SharedIs(store, next, affected, shared);
    complete := next.length == |present|;
  }

  /** The candidates that are stored and no longer present. */
  method FindDeparted(store: Store, present: set<SymbolID>, candidates: set<SymbolID>)
    returns (removed: set<SymbolID>, touched: set<nat>)
    requires StoreValid(store) && store.chunks != []
    ensures removed == Departed(store, present, candidates)
    ensures forall c :: c in touched <==> exists id :: id in removed && HomeOf(store.chunks, id) == c
  {
    hide Find, StoreRows, HomeOf, StoreValid;
    removed, touched := {}, {};
    var remaining := candidates;
    while remaining != {}
      invariant remaining <= candidates
      invariant forall id :: id in removed <==> (id in candidates && id !in remaining && id !in present && Find(StoreRows(store), id).Some?)
      invariant forall c :: c in touched <==> exists id :: id in removed && HomeOf(store.chunks, id) == c
      decreases |remaining|
    {
      var id :| id in remaining;
      remaining := remaining - {id};
      if id !in present {
        var existing := SymbolStores.Get(store, id);
        if existing.Some? {
          removed := removed + {id};
          var c := ChunkFor(store, id);
          touched := touched + {c};
        }
      }
    }
  }

  lemma SharedIs(store: Store, next: Store, affected: set<nat>, shared: nat)
    requires forall c :: 0 <= c < |store.chunks| && c !in affected ==> store.chunks[c] in next.chunks
    requires shared == |Unaffected(|store.chunks|, affected)|
    ensures UntouchedShared(store, next, affected, shared)
  {
  }

  lemma DepartedIs(store: Store, present: set<SymbolID>, candidates: set<SymbolID>, removed: set<SymbolID>)
    requires removed == Departed(store, present, candidates)
    ensures forall id :: id in removed ==> Find(StoreRows(store), id).Some?
  {
    hide Find, StoreRows;
  }

  lemma TouchedIs(store: Store, patches: Patches, removed: set<SymbolID>, affected: set<nat>)
    requires forall c :: c in affected <==> (
      (exists id :: id in patches && HomeOf(store.chunks, id) == c) || (exists id :: id in removed && HomeOf(store.chunks, id) == c))
    ensures affected == Touched(store, patches, removed)
    ensures forall id :: id in patches || id in removed ==> HomeOf(store.chunks, id) in affected
  {
    hide HomeOf;
  }

  lemma PatchDone(store: Store, patches: Patches, removed: set<SymbolID>, next: Store)
    requires StoreValid(store) && store.chunks != [] && ChunksSized(next.chunks) && next.length == |Flatten(next.chunks)|
    requires ChunksDone(store, patches, removed, |store.chunks|, Flatten(next.chunks))
    ensures PatchedStore(store, next, patches, removed)
  {
    hide Find, HomeOf, Flatten, Less, Sorted, ChunksSized, Slot;
    forall id ensures HomeOf(store.chunks, id) < |store.chunks| {
      StoreParts(store);
      HomeIs(store.chunks, id);
      HomeBound(store.chunks, id, HomeOf(store.chunks, id));
    }
  }

  method PatchFacts(patches: Patches) returns (facts: seq<Row<SymbolBody>>)
    ensures DistinctKeys(facts)
    ensures forall id :: Find(facts, id) == if id in patches then Some(patches[id]) else None
  {
    hide Find;
    facts := [];
    FindEmpty<SymbolBody>();
    var remaining := patches.Keys;
    while remaining != {}
      invariant remaining <= patches.Keys && DistinctKeys(facts)
      invariant forall id :: Find(facts, id) == if id in patches && id !in remaining then Some(patches[id]) else None
      decreases |remaining|
    {
      var id :| id in remaining;
      FindAbsent(facts, id);
      AppendFact(facts, Row(id, patches[id]));
      remaining := remaining - {id};
      facts := facts + [Row(id, patches[id])];
    }
  }

  lemma AppendFact(facts: seq<Row<SymbolBody>>, row: Row<SymbolBody>)
    requires DistinctKeys(facts) && !HasKey(facts, row.key)
    ensures DistinctKeys(facts + [row])
    ensures forall id :: Find(facts + [row], id) == if id == row.key then Some(row.value) else Find(facts, id)
  {
    hide Find;
    FindAbsent(facts, row.key);
    forall id ensures Find(facts + [row], id) == if id == row.key then Some(row.value) else Find(facts, id) {
      FindConcat(facts, [row], id);
      FindOne(row, id);
    }
    forall i | 0 <= i < |facts| ensures facts[i].key != row.key {
    }
  }

  lemma EmptyPatched(store: Store, next: Store, present: set<SymbolID>, patches: Patches, candidates: set<SymbolID>)
    requires store.chunks == [] && StoreValid(next)
    requires forall id :: Find(StoreRows(next), id) == if id in patches then Some(patches[id]) else None
    ensures Departed(store, present, candidates) == {} && PatchedStore(store, next, patches, {})
  {
    hide StoreValid;
    EmptyRows(store);
    hide Find, StoreRows;
  }

  method BuildChunks(store: Store, patches: Patches, removed: set<SymbolID>, additions: map<nat, seq<Row<SymbolBody>>>, affected: set<nat>)
    returns (chunks: Chunks, length: nat, shared: nat)
    requires StoreValid(store) && store.chunks != []
    requires forall id :: id in removed ==> Find(StoreRows(store), id).Some?
    requires forall c :: AddedTo(store, patches, patches.Keys, c, AdditionsAt(additions, c))
    requires forall id :: id in patches || id in removed ==> HomeOf(store.chunks, id) in affected
    ensures ChunksSized(chunks) && ChunksDone(store, patches, removed, |store.chunks|, Flatten(chunks))
    ensures length == |Flatten(chunks)| && shared == |Unaffected(|store.chunks|, affected)|
    ensures forall c :: 0 <= c < |store.chunks| && c !in affected ==> store.chunks[c] in chunks
  {
    hide *;
    chunks, length, shared := [], 0, 0;
    NoneBuilt(store, patches, removed);
    CountUnaffected(0, affected);
    StoreParts(store);
    for c := 0 to |store.chunks|
      invariant ChunksSized(chunks) && length == |Flatten(chunks)|
      invariant ChunksDone(store, patches, removed, c, Flatten(chunks))
      invariant shared == |Unaffected(c, affected)|
      invariant forall d :: 0 <= d < c && d !in affected ==> store.chunks[d] in chunks
    {
      var chunk := store.chunks[c];
      CountUnaffected(c, affected);
      if c !in affected {
        SharedChunk(store, patches, removed, c);
        JoinChunk(store, patches, removed, c, Flatten(chunks), chunk);
        AppendOne(chunks, chunk);
        SizedAppend(store.chunks, c, chunks);
        chunks := chunks + [chunk];
        length := length + |chunk|;
        shared := shared + 1;
      } else {
        InChunk(store, c, "");
        var survivors := PatchRows(chunk, patches, removed);
        var added := AdditionsAt(additions, c);
        TouchedChunk(store, patches, removed, c, survivors, added);
        var rows := SortByID(survivors + added);
        JoinChunk(store, patches, removed, c, Flatten(chunks), rows);
        chunks := AppendChunks(chunks, rows);
        length := length + |rows|;
      }
    }
  }

  lemma NoneBuilt(store: Store, patches: Patches, removed: set<SymbolID>)
    ensures ChunksSized([]) && Flatten<SymbolBody>([]) == [] && ChunksDone(store, patches, removed, 0, [])
  {
    hide HomeOf, StoreRows, Less;
  }

  lemma SizedAppend(from: Chunks, c: nat, chunks: Chunks)
    requires ChunksSized(from) && c < |from| && ChunksSized(chunks)
    ensures ChunksSized(chunks + [from[c]])
  {
  }

  // --- patching a stable universe ---

  /** The rows of one chunk with patched values; no ID is added or dropped. */
  function Replaced(chunk: seq<Row<SymbolBody>>, patches: Patches): (rows: seq<Row<SymbolBody>>)
    ensures |rows| == |chunk| && forall k :: 0 <= k < |chunk| ==> rows[k].key == chunk[k].key
  {
    seq(|chunk|, k requires 0 <= k < |chunk| =>
      if chunk[k].key in patches then Row(chunk[k].key, patches[chunk[k].key]) else chunk[k])
  }

  /** The chunks the patched IDs live in, unless one of them is not stored. */
  method FindAffected(store: Store, patches: Patches) returns (affected: set<nat>, ok: bool)
    requires StoreValid(store)
    ensures ok <==> forall id :: id in patches ==> Find(StoreRows(store), id).Some?
    ensures ok ==> affected == Touched(store, patches, {})
    ensures ok ==> forall id :: id in patches ==> HomeOf(store.chunks, id) in affected
  {
    hide Find, StoreRows, HomeOf, StoreValid;
    affected := {};
    var remaining := patches.Keys;
    while remaining != {}
      invariant remaining <= patches.Keys
      invariant forall id :: id in patches && id !in remaining ==> Find(StoreRows(store), id).Some?
      invariant forall c :: c in affected <==> exists id :: id in patches && id !in remaining && HomeOf(store.chunks, id) == c
      decreases |remaining|
    {
      var id :| id in remaining;
      var existing := SymbolStores.Get(store, id);
      if existing.None? { return {}, false; }
      if store.chunks == [] { EmptyRows(store); }
      var c := ChunkFor(store, id);
      affected := affected + {c};
      remaining := remaining - {id};
    }
    TouchedIs(store, patches, {}, affected);
    ok := true;
  }

  /** `PatchExisting`: refuses an ID that is not stored; otherwise every chunk keeps its
  IDs and only touched chunks are copied. */
  method PatchExisting(store: Store, patches: Patches) returns (next: Store, shared: nat, ok: bool)
    requires StoreValid(store)
    ensures ok <==> forall id :: id in patches ==> Find(StoreRows(store), id).Some?
    ensures ok ==> PatchedStore(store, next, patches, {})
    ensures ok ==> |next.chunks| == |store.chunks|
    ensures ok ==> forall c :: 0 <= c < |store.chunks| ==> next.chunks[c] == Replaced(store.chunks[c], patches)
    ensures ok ==> shared == |Unaffected(|store.chunks|, Touched(store, patches, {}))|
    ensures ok ==> forall c :: 0 <= c < |store.chunks| && c !in Touched(store, patches, {}) ==> next.chunks[c] == store.chunks[c]
  {
    hide *;
    var affected, known := FindAffected(store, patches);
    if !known { return store, 0, false; }
    var chunks: Chunks := [];
    shared := 0;
    CountUnaffected(0, affected);
    for c := 0 to |store.chunks|
      invariant |chunks| == c && shared == |Unaffected(c, affected)|
      invariant forall d :: 0 <= d < c ==> chunks[d] == Replaced(store.chunks[d], patches)
      invariant forall d :: 0 <= d < c && d !in affected ==> chunks[d] == store.chunks[d]
    {
      CountUnaffected(c, affected);
      if c !in affected {
        UntouchedReplaced(store, patches, affected, c);
        shared := shared + 1;
        chunks := chunks + [store.chunks[c]];
      } else {
        chunks := chunks + [Replaced(store.chunks[c], patches)];
      }
    }
    next := Store(chunks, store.length);
    ok := true;
    ReplacedStore(store, patches, next);
  }

  lemma UntouchedReplaced(store: Store, patches: Patches, affected: set<nat>, c: nat)
    requires StoreValid(store) && c < |store.chunks| && c !in affected
    requires forall id :: id in patches ==> HomeOf(store.chunks, id) in affected
    ensures Replaced(store.chunks[c], patches) == store.chunks[c]
  {
    hide HomeOf, StoreValid, Less;
    StoreParts(store);
    hide LeavesFormed;
    var chunk := store.chunks[c];
    forall k | 0 <= k < |chunk| ensures chunk[k].key !in patches {
      RowHome(store.chunks, c, k);
      HomeIs(store.chunks, chunk[k].key);
      HomeUnique(store.chunks, chunk[k].key, c, HomeOf(store.chunks, chunk[k].key));
    }
  }

  lemma {:induction false} ReplacedFlat(chunks: Chunks, next: Chunks, patches: Patches)
    requires |next| == |chunks| && forall c :: 0 <= c < |chunks| ==> next[c] == Replaced(chunks[c], patches)
    ensures Flatten(next) == Replaced(Flatten(chunks), patches)
  {
    if chunks != [] { ReplacedFlat(chunks[1..], next[1..], patches); }
  }

  lemma {:induction false} ReplacedFind(rows: seq<Row<SymbolBody>>, patches: Patches, id: SymbolID)
    ensures Find(Replaced(rows, patches), id)
         == if id in patches && Find(rows, id).Some? then Some(patches[id]) else Find(rows, id)
  {
    if rows != [] {
      ReplacedFind(rows[1..], patches, id);
      assert Replaced(rows, patches)[1..] == Replaced(rows[1..], patches);
    }
  }

  lemma ReplacedStore(store: Store, patches: Patches, next: Store)
    requires StoreValid(store) && next.length == store.length && |next.chunks| == |store.chunks|
    requires forall c :: 0 <= c < |store.chunks| ==> next.chunks[c] == Replaced(store.chunks[c], patches)
    requires forall id :: id in patches ==> Find(StoreRows(store), id).Some?
    ensures PatchedStore(store, next, patches, {})
  {
    hide Find, Flatten, Less, Replaced;
    ReplacedFlat(store.chunks, next.chunks, patches);
    forall id ensures Find(StoreRows(next), id) == Slot(StoreRows(store), patches, {}, id) {
      ReplacedFind(StoreRows(store), patches, id);
    }
  }

  // --- completeness by counting ---

  function IDs(rows: seq<Row<SymbolBody>>): set<SymbolID> {
    set i | 0 <= i < |rows| :: rows[i].key
  }

  lemma {:induction false} CountIDs(rows: seq<Row<SymbolBody>>)
    requires Sorted(rows)
    ensures |IDs(rows)| == |rows|
  {
    hide Less;
    TotalOrder();
    if rows != [] {
      var front, last := rows[..|rows| - 1], rows[|rows| - 1];
      CountIDs(front);
      assert IDs(rows) == IDs(front) + {last.key};
      assert last.key !in IDs(front);
    }
  }

  lemma FindInIDs(rows: seq<Row<SymbolBody>>, id: SymbolID)
    ensures Find(rows, id).Some? <==> id in IDs(rows)
  {
    FindAbsent(rows, id);
  }

  lemma SubsetOfEqualSize<T>(a: set<T>, b: set<T>)
    requires a <= b && |a| == |b|
    ensures a == b
  {
    assert |b - a| == |b| - |a|;
  }

  /** A store that holds every present ID and no more rows than there are present IDs
  holds exactly the present IDs. */
  lemma CompleteByCounting(store: Store, present: set<SymbolID>)
    requires StoreValid(store) && store.length == |present|
    requires forall id :: id in present ==> Find(StoreRows(store), id).Some?
    ensures forall id :: Find(StoreRows(store), id).Some? <==> id in present
  {
    hide Find, StoreRows, Less;
    var rows := StoreRows(store);
    CountIDs(rows);
    forall id ensures Find(rows, id).Some? <==> id in IDs(rows) { FindInIDs(rows, id); }
    SubsetOfEqualSize(present, IDs(rows));
  }
}
