/** The producer's immutable canonical symbol store (internal/typefacts/symbol_store.go):
ordered rows in non-empty chunks. */
module SymbolStores {
  import opened Order
  import opened SortedRows
  import opened Facts
  import opened PackedIndexes

  const SYMBOL_FACT_CHUNK_SIZE: nat := 256

  datatype Store = Store(chunks: seq<seq<Row<SymbolBody>>>, length: nat)

  type Chunks = seq<seq<Row<SymbolBody>>>

  function StoreRows(store: Store): seq<Row<SymbolBody>> {
    Flatten(store.chunks)
  }

  ghost predicate ChunksSized(chunks: Chunks) {
    forall c :: 0 <= c < |chunks| ==> 0 < |chunks[c]| <= SYMBOL_FACT_CHUNK_SIZE
  }

  ghost predicate StoreValid(store: Store) {
    ChunksSized(store.chunks) && Sorted(StoreRows(store)) && store.length == |StoreRows(store)|
  }

  lemma StoreParts(store: Store)
    requires StoreValid(store)
    ensures ChunksSized(store.chunks) && Sorted(StoreRows(store)) && LeavesFormed(store.chunks)
    ensures StoreRows(store) == Flatten(store.chunks)
  {
    hide Sorted, Flatten;
  }

  /** Rows appended in runs of the chunk size. */
  method AppendChunks(chunks: Chunks, rows: seq<Row<SymbolBody>>) returns (next: Chunks)
    requires ChunksSized(chunks)
    ensures ChunksSized(next) && Flatten(next) == Flatten(chunks) + rows
    ensures chunks <= next && (rows == [] ==> next == chunks)
  {
    hide Flatten;
    next := chunks;
    var start := 0;
    assert Flatten(chunks) + rows[..0] == Flatten(chunks);
    while start < |rows|
      invariant 0 <= start <= |rows| && ChunksSized(next) && chunks <= next
      invariant Flatten(next) == Flatten(chunks) + rows[..start]
      invariant start == 0 ==> next == chunks
    {
      var end := if start + SYMBOL_FACT_CHUNK_SIZE <= |rows| then start + SYMBOL_FACT_CHUNK_SIZE else |rows|;
      AppendOne(next, rows[start..end]);
      Cut(Flatten(chunks), rows, start, end);
      next := next + [rows[start..end]];
      start := end;
    }
    assert rows[..|rows|] == rows;
  }

  lemma AppendOne(chunks: Chunks, chunk: seq<Row<SymbolBody>>)
    ensures Flatten(chunks + [chunk]) == Flatten(chunks) + chunk
  {
    hide Flatten;
    FlattenConcat(chunks, [chunk]);
    FlattenOne(chunk);
  }

  lemma Cut<T>(before: seq<T>, rows: seq<T>, start: nat, end: nat)
    requires start <= end <= |rows|
    ensures before + rows[..start] + rows[start..end] == before + rows[..end]
  {
    assert rows[..end] == rows[..start] + rows[start..end];
  }

  method NewStore(facts: seq<Row<SymbolBody>>) returns (store: Store)
    requires Sorted(facts)
    ensures StoreValid(store) && StoreRows(store) == facts
  {
    hide Sorted, Less;
    var chunks := AppendChunks([], facts);
    assert [] + facts == facts;
    store := Store(chunks, |facts|);
  }

  // --- the chunk of an ID ---

  lemma HomeUnique(chunks: Chunks, id: SymbolID, i: nat, j: nat)
    requires LeavesFormed(chunks) && Home(chunks, id, i) && Home(chunks, id, j)
    ensures i == j
  {
    hide LeavesFormed, Less;
    if i < j { HomeBefore(chunks, id, i, j); }
    if j < i { HomeBefore(chunks, id, j, i); }
  }

  lemma HomeBefore(chunks: Chunks, id: SymbolID, i: nat, j: nat)
    requires LeavesFormed(chunks) && Home(chunks, id, i) && Home(chunks, id, j)
    ensures !(i < j)
  {
    hide Less;
  }

  /** IDs with an earlier home precede IDs with a later one. */
  lemma HomeOrder(chunks: Chunks, a: SymbolID, i: nat, b: SymbolID, j: nat)
    requires LeavesFormed(chunks) && Home(chunks, a, i) && Home(chunks, b, j) && i < j
    ensures Less(a, b)
  {
    hide Less, LeavesFormed;
    TotalOrder();
    assert chunks[i] != [] by { ChunkNonEmpty(chunks, i); }
    assert Less(Last(chunks[i]), b) && !Less(Last(chunks[i]), a);
  }

  lemma ChunkNonEmpty(chunks: Chunks, i: nat)
    requires LeavesFormed(chunks) && i < |chunks|
    ensures chunks[i] != []
  {
    hide Sorted, Flatten;
  }

  /** A stored row is at home in its chunk. */
  lemma RowHome(chunks: Chunks, i: nat, k: nat)
    requires LeavesFormed(chunks) && i < |chunks| && k < |chunks[i]|
    ensures Home(chunks, chunks[i][k].key, i)
  {
    hide Less, Flatten;
    TotalOrder();
    forall c | 0 <= c < i ensures Less(Last(chunks[c]), chunks[i][k].key) {
      LeavesOrdered(chunks, c, i, |chunks[c]| - 1, k);
    }
    LeafSorted(chunks, i);
    assert AtMost(chunks[i][k].key, Last(chunks[i]));
  }

  /** The home as a number; `HomeIs` ties it to the search. */
  function HomeOf(chunks: Chunks, id: SymbolID): nat {
    if |chunks| <= 1 || chunks[0] == [] || !Less(Last(chunks[0]), id) then 0 else 1 + HomeOf(chunks[1..], id)
  }

  lemma {:induction false} HomeIs(chunks: Chunks, id: SymbolID)
    requires LeavesFormed(chunks) && chunks != []
    ensures Home(chunks, id, HomeOf(chunks, id))
  {
    hide Less, Sorted, Flatten;
    if |chunks| > 1 {
      TailFormed(chunks);
      if Less(Last(chunks[0]), id) {
        HomeIs(chunks[1..], id);
        var i := HomeOf(chunks[1..], id);
        forall k | 0 <= k < i + 1 ensures Less(Last(chunks[k]), id) {
          if k > 0 { assert chunks[k] == chunks[1..][k - 1]; }
        }
        assert chunks[i + 1] == chunks[1..][i];
      }
    }
  }

  lemma TailFormed(chunks: Chunks)
    requires LeavesFormed(chunks) && chunks != []
    ensures LeavesFormed(chunks[1..])
  {
    hide Sorted, Less;
    SortedTail(chunks[0], Flatten(chunks[1..]));
  }

  lemma SortedTail<V>(left: seq<Row<V>>, right: seq<Row<V>>)
    requires Sorted(left + right)
    ensures Sorted(right)
  {
    hide Less;
    var rows := left + right;
    forall i, j | 0 <= i < j < |right| ensures Less(right[i].key, right[j].key) {
      assert rows[|left| + i] == right[i] && rows[|left| + j] == right[j];
    }
  }

  method ChunkFor(store: Store, id: SymbolID) returns (index: nat)
    requires StoreValid(store) && store.chunks != []
    ensures index < |store.chunks| && index == HomeOf(store.chunks, id)
  {
    hide *;
    StoreParts(store);
    index := LeafFor(store.chunks, id);
    HomeIs(store.chunks, id);
    HomeUnique(store.chunks, id, index, HomeOf(store.chunks, id));
    HomeBound(store.chunks, id, index);
  }

  lemma HomeBound(chunks: Chunks, id: SymbolID, i: nat)
    requires LeavesFormed(chunks) && Home(chunks, id, i)
    ensures i < |chunks|
  {
    hide LeavesFormed, Less;
  }

  /** `Get`: a search for the chunk, then one inside it. */
  method Get(store: Store, id: SymbolID) returns (fact: Option<SymbolBody>)
    requires StoreValid(store)
    ensures fact == Find(StoreRows(store), id)
  {
    hide *;
    StoreParts(store);
    if store.chunks == [] {
      EmptyRows(store);
      return None;
    }
    var index := ChunkFor(store, id);
    var chunk := store.chunks[index];
    HomeIs(store.chunks, id);
    FindHome(store.chunks, id, index);
    LeafSorted(store.chunks, index);
    var at := Search(chunk, id);
    FindByIndex(chunk, id);
    HitMeaning(chunk, id, at);
    if at == |chunk| || chunk[at].key != id { return None; }
    fact := Some(chunk[at].value);
  }

  lemma EmptyRows(store: Store)
    requires store.chunks == []
    ensures StoreRows(store) == [] && forall id :: Find(StoreRows(store), id) == None
  {
  }

  lemma HitMeaning(chunk: seq<Row<SymbolBody>>, id: SymbolID, at: nat)
    ensures HitAt(chunk, id, at) <==> at < |chunk| && chunk[at].key == id
  {
  }
}
