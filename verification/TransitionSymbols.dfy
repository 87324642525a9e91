/** Planning the symbol operations of a transition
(internal/typefacts/wire_transition_diff.go): a walk over two chunked tables that skips
shared chunks whole, and the exact delta with its per-path reference runs. */
module TransitionSymbols {
  import opened Order
  import opened SortedRows
  import opened Facts
  import opened KeyedEdits
  import opened RetainedSymbols
  import opened SymbolDeltas

  // --- the fallback plan over chunks ---

  /** A chunk of canonical symbol rows; equal addresses mean the same backing rows. */
  datatype Chunk = Chunk(address: nat, rows: seq<Row<SymbolBody>>)

  function ChunkRows(chunks: seq<Chunk>): seq<Row<SymbolBody>> {
    if chunks == [] then [] else chunks[0].rows + ChunkRows(chunks[1..])
  }

  ghost predicate ChunksFormed(chunks: seq<Chunk>) {
    Sorted(ChunkRows(chunks)) && forall c :: 0 <= c < |chunks| ==> chunks[c].rows != []
  }

  /** Chunks are immutable: one address, one content. */
  ghost predicate Coherent(left: seq<Chunk>, right: seq<Chunk>) {
    forall c, d :: 0 <= c < |left| && 0 <= d < |right| && left[c].address == right[d].address && |left[c].rows| == |right[d].rows| ==>
      left[c].rows == right[d].rows
  }

  /** The rows a cursor has yet to visit. */
  function RestRows(chunks: seq<Chunk>, chunk: nat, row: nat): seq<Row<SymbolBody>>
    requires chunk <= |chunks| && (chunk < |chunks| ==> row <= |chunks[chunk].rows|)
  {
    if chunk == |chunks| then [] else chunks[chunk].rows[row..] + ChunkRows(chunks[chunk + 1..])
  }

  type SymbolOps = seq<Row<SymbolEdit>>

  function SymbolDiff(previous: Option<SymbolBody>, next: Option<SymbolBody>): Option<SymbolEdit> {
    if previous == next then None
    else if next.None? then Some(RemoveSymbol) else Some(ReplaceSymbol(next.value))
  }

  ghost predicate SymbolsWalked(previous: seq<Row<SymbolBody>>, next: seq<Row<SymbolBody>>, i: nat, j: nat, ops: SymbolOps) {
    && i <= |previous| && j <= |next| && Sorted(previous) && Sorted(next) && Sorted(ops)
    && (i < |previous| ==> Below(next[..j], previous[i].key) && Below(ops, previous[i].key))
    && (j < |next| ==> Below(previous[..i], next[j].key) && Below(ops, next[j].key))
    && (forall id :: Find(ops, id) == SymbolDiff(Find(previous[..i], id), Find(next[..j], id)))
  }

  function Hit(rows: seq<Row<SymbolBody>>, i: nat, id: SymbolID): bool {
    i < |rows| && rows[i].key == id
  }

  function HitValue(rows: seq<Row<SymbolBody>>, i: nat, id: SymbolID): Option<SymbolBody> {
    if i < |rows| && rows[i].key == id then Some(rows[i].value) else None
  }

  function Past1(rows: seq<Row<SymbolBody>>, i: nat, id: SymbolID): nat {
    if i < |rows| && rows[i].key == id then i + 1 else i
  }

  ghost predicate LeastID(previous: seq<Row<SymbolBody>>, next: seq<Row<SymbolBody>>, i: nat, j: nat, id: SymbolID) {
    && (Hit(previous, i, id) || Hit(next, j, id))
    && (i < |previous| ==> !Less(previous[i].key, id))
    && (j < |next| ==> !Less(next[j].key, id))
  }

  function EmitSymbol(ops: SymbolOps, id: SymbolID, edit: Option<SymbolEdit>): SymbolOps {
    if edit.None? then ops else ops + [Row(id, edit.value)]
  }

  lemma UnderPrefix(rows: seq<Row<SymbolBody>>, other: seq<Row<SymbolBody>>, i: nat, j: nat, id: SymbolID)
    requires Sorted(rows) && i <= |rows|
    requires Hit(rows, i, id) || (Hit(other, j, id) && Below(rows[..i], id))
    ensures Below(rows[..i], id)
  {
    hide Less;
  }

  lemma PastStream(rows: seq<Row<SymbolBody>>, i: nat, id: SymbolID)
    requires Sorted(rows) && i <= |rows| && Below(rows[..i], id)
    requires i < |rows| ==> !Less(rows[i].key, id)
    ensures Past1(rows, i, id) <= |rows|
    ensures Find(rows[..Past1(rows, i, id)], id) == HitValue(rows, i, id)
    ensures forall other :: other != id ==> Find(rows[..Past1(rows, i, id)], other) == Find(rows[..i], other)
    ensures Past1(rows, i, id) < |rows| ==> Less(id, rows[Past1(rows, i, id)].key)
    ensures forall key :: Less(id, key) ==> Below(rows[..Past1(rows, i, id)], key)
  {
    hide Less, Find;
    TotalOrder();
    BelowAbsent(rows[..i], id);
    if i < |rows| && rows[i].key == id {
      assert rows[..i + 1] == rows[..i] + [rows[i]];
      forall other ensures Find(rows[..i + 1], other) == if other == id then Some(rows[i].value) else Find(rows[..i], other) {
        FindAppend(rows[..i], rows[i], other);
      }
    }
  }

  lemma EmitSymbolMeaning(ops: SymbolOps, id: SymbolID, edit: Option<SymbolEdit>)
    requires Sorted(ops) && Below(ops, id)
    ensures Sorted(EmitSymbol(ops, id, edit))
    ensures forall other :: Find(EmitSymbol(ops, id, edit), other) == if other == id then edit else Find(ops, other)
    ensures forall key :: Less(id, key) ==> Below(EmitSymbol(ops, id, edit), key)
  {
    hide Less, Find;
    TotalOrder();
    BelowAbsent(ops, id);
    if edit.Some? {
      var row := Row(id, edit.value);
      SortedAppend(ops, row);
      forall other ensures Find(ops + [row], other) == if other == id then edit else Find(ops, other) { FindAppend(ops, row, other); }
    }
  }

  lemma SymbolStepWalk(previous: seq<Row<SymbolBody>>, next: seq<Row<SymbolBody>>, i: nat, j: nat, ops: SymbolOps, id: SymbolID)
    requires SymbolsWalked(previous, next, i, j, ops) && LeastID(previous, next, i, j, id)
    ensures SymbolsWalked(previous, next, Past1(previous, i, id), Past1(next, j, id),
      EmitSymbol(ops, id, SymbolDiff(HitValue(previous, i, id), HitValue(next, j, id))))
  {
    hide Less, Find, Sorted, Below, EmitSymbol, SymbolDiff, Past1, HitValue;
    UnderPrefix(previous, next, i, j, id);
    UnderPrefix(next, previous, j, i, id);
    PastStream(previous, i, id);
    PastStream(next, j, id);
    EmitSymbolMeaning(ops, id, SymbolDiff(HitValue(previous, i, id), HitValue(next, j, id)));
  }

  /** Two equal runs at the heads produce no operation. */
  lemma {:induction false} SkipEqual(previous: seq<Row<SymbolBody>>, next: seq<Row<SymbolBody>>, i: nat, j: nat, ops: SymbolOps, n: nat)
    requires SymbolsWalked(previous, next, i, j, ops) && i + n <= |previous| && j + n <= |next|
    requires previous[i..i + n] == next[j..j + n]
    ensures SymbolsWalked(previous, next, i + n, j + n, ops)
    decreases n
  {
    if n > 0 {
      assert previous[i] == previous[i..i + n][0] == next[j];
      assert previous[i + 1..i + n] == previous[i..i + n][1..] && next[j + 1..j + n] == next[j..j + n][1..];
      LessIrreflexive(previous[i].key);
      EqualHead(previous, next, i, j, ops);
      SkipEqual(previous, next, i + 1, j + 1, ops, n - 1);
    }
  }

  lemma EqualHead(previous: seq<Row<SymbolBody>>, next: seq<Row<SymbolBody>>, i: nat, j: nat, ops: SymbolOps)
    requires SymbolsWalked(previous, next, i, j, ops) && i < |previous| && j < |next| && previous[i] == next[j]
    ensures SymbolsWalked(previous, next, i + 1, j + 1, ops)
  {
    hide SymbolsWalked, Less;
    LessIrreflexive(previous[i].key);
    SymbolStepWalk(previous, next, i, j, ops, previous[i].key);
  }

  lemma SymbolWalkStart(previous: seq<Row<SymbolBody>>, next: seq<Row<SymbolBody>>)
    requires Sorted(previous) && Sorted(next)
    ensures SymbolsWalked(previous, next, 0, 0, [])
  {
    hide Less;
  }

  lemma SymbolWalkEnd(previous: seq<Row<SymbolBody>>, next: seq<Row<SymbolBody>>, ops: SymbolOps)
    requires SymbolsWalked(previous, next, |previous|, |next|, ops)
    ensures Sorted(ops) && forall id :: Find(ops, id) == SymbolDiff(Find(previous, id), Find(next, id))
  {
    hide Less, Find, SymbolDiff;
    assert previous[..|previous|] == previous && next[..|next|] == next;
  }

  // --- the chunk cursor ---

  lemma {:induction false} RestStart(chunks: seq<Chunk>)
    requires ChunksFormed(chunks)
    ensures RestRows(chunks, 0, 0) == ChunkRows(chunks)
  {
    if chunks != [] { assert chunks[0].rows[0..] == chunks[0].rows; }
  }

  /** The row under the cursor and the rows after it. */
  lemma RestNext(chunks: seq<Chunk>, chunk: nat, row: nat)
    requires ChunksFormed(chunks) && chunk < |chunks| && row < |chunks[chunk].rows|
    ensures var last := row + 1 == |chunks[chunk].rows|;
      && RestRows(chunks, chunk, row) != [] && RestRows(chunks, chunk, row)[0] == chunks[chunk].rows[row]
      && RestRows(chunks, chunk, row)[1..] == RestRows(chunks, if last then chunk + 1 else chunk, if last then 0 else row + 1)
  {
    hide Sorted;
    var rows, after := chunks[chunk].rows, ChunkRows(chunks[chunk + 1..]);
    assert rows[row..] == [rows[row]] + rows[row + 1..];
    assert (rows[row..] + after)[1..] == rows[row + 1..] + after;
    if row + 1 == |rows| {
      assert rows[row + 1..] + after == after;
      SkipChunk(chunks, chunk);
    }
  }

  lemma SkipChunk(chunks: seq<Chunk>, chunk: nat)
    requires ChunksFormed(chunks) && chunk < |chunks|
    ensures RestRows(chunks, chunk + 1, 0) == ChunkRows(chunks[chunk + 1..])
    ensures RestRows(chunks, chunk, 0) == chunks[chunk].rows + RestRows(chunks, chunk + 1, 0)
  {
    hide Sorted;
    assert chunks[chunk].rows[0..] == chunks[chunk].rows;
    if chunk + 1 < |chunks| {
      assert chunks[chunk + 1].rows[0..] == chunks[chunk + 1].rows;
      assert chunks[chunk + 1..][1..] == chunks[chunk + 2..];
    }
  }

  ghost predicate CursorAt(chunks: seq<Chunk>, chunk: nat, row: nat, n: nat) {
    && ChunksFormed(chunks) && chunk <= |chunks|
    && (chunk < |chunks| ==> row < |chunks[chunk].rows|) && (chunk == |chunks| ==> row == 0)
    && n <= |ChunkRows(chunks)| && RestRows(chunks, chunk, row) == ChunkRows(chunks)[n..]
  }

  lemma CursorStart(chunks: seq<Chunk>)
    requires ChunksFormed(chunks)
    ensures CursorAt(chunks, 0, 0, 0)
  {
    hide Sorted;
    RestStart(chunks);
    assert ChunkRows(chunks)[0..] == ChunkRows(chunks);
  }

  lemma CursorEnd(chunks: seq<Chunk>, chunk: nat, row: nat, n: nat)
    requires CursorAt(chunks, chunk, row, n)
    ensures chunk < |chunks| <==> n < |ChunkRows(chunks)|
  {
    hide Sorted;
    if chunk < |chunks| { RestNext(chunks, chunk, row); }
  }

  lemma CursorNext(chunks: seq<Chunk>, chunk: nat, row: nat, n: nat)
    requires CursorAt(chunks, chunk, row, n) && chunk < |chunks|
    ensures n < |ChunkRows(chunks)| && ChunkRows(chunks)[n] == chunks[chunk].rows[row]
    ensures var last := row + 1 == |chunks[chunk].rows|;
      CursorAt(chunks, if last then chunk + 1 else chunk, if last then 0 else row + 1, n + 1)
  {
    hide Sorted;
    RestNext(chunks, chunk, row);
    assert ChunkRows(chunks)[n..][1..] == ChunkRows(chunks)[n + 1..];
  }

  lemma CursorSkip(chunks: seq<Chunk>, chunk: nat, n: nat)
    requires CursorAt(chunks, chunk, 0, n) && chunk < |chunks|
    ensures var size := |chunks[chunk].rows|;
      && size > 0 && n + size <= |ChunkRows(chunks)| && ChunkRows(chunks)[n..n + size] == chunks[chunk].rows
      && CursorAt(chunks, chunk + 1, 0, n + size)
  {
    hide Sorted;
    SkipChunk(chunks, chunk);
    var all, size := ChunkRows(chunks), |chunks[chunk].rows|;
    assert all[n..] == chunks[chunk].rows + RestRows(chunks, chunk + 1, 0);
    assert all[n..][..size] == all[n..n + size];
    assert all[n..][size..] == all[n + size..];
  }

  /** The cursor over one table's chunks. */
  class SymbolCursor {
    const chunks: seq<Chunk>
    var chunk: nat
    var row: nat

    constructor (c: seq<Chunk>)
      requires ChunksFormed(c)
      ensures chunks == c && chunk == 0 && row == 0 && CursorAt(c, 0, 0, 0)
    {
      chunks, chunk, row := c, 0, 0;
      new;
      CursorStart(c);
    }

    method Next(ghost n: nat)
      requires CursorAt(chunks, chunk, row, n) && chunk < |chunks|
      modifies this
      ensures CursorAt(chunks, chunk, row, n + 1)
      ensures n < |ChunkRows(chunks)| && ChunkRows(chunks)[n] == old(chunks[chunk].rows[row])
    {
      hide CursorAt, ChunkRows;
      CursorNext(chunks, chunk, row, n);
      CursorRow(chunks, chunk, row, n);
      row := row + 1;
      if row == |chunks[chunk].rows| {
        chunk := chunk + 1;
        row := 0;
      }
    }
  }

  lemma CursorRow(chunks: seq<Chunk>, chunk: nat, row: nat, n: nat)
    requires CursorAt(chunks, chunk, row, n) && chunk < |chunks|
    ensures row < |chunks[chunk].rows|
  {
  }

  /** The least unvisited ID: it is passed on each side that has it, with one operation if its fact differs. */
  method VisitLeast(base: seq<Chunk>, target: seq<Chunk>, left: SymbolCursor, right: SymbolCursor, visited: SymbolOps, ghost i: nat, ghost j: nat)
    returns (ops: SymbolOps, ghost nextI: nat, ghost nextJ: nat)
    requires left.chunks == base && right.chunks == target && left != right
    requires left.chunk < |base| || right.chunk < |target|
    requires CursorAt(base, left.chunk, left.row, i) && (left.chunk < |base| <==> i < |ChunkRows(base)|)
    requires CursorAt(target, right.chunk, right.row, j) && (right.chunk < |target| <==> j < |ChunkRows(target)|)
    requires SymbolsWalked(ChunkRows(base), ChunkRows(target), i, j, visited)
    modifies left, right
    ensures CursorAt(base, left.chunk, left.row, nextI) && CursorAt(target, right.chunk, right.row, nextJ)
    ensures i <= nextI && j <= nextJ && i + j < nextI + nextJ
    ensures SymbolsWalked(ChunkRows(base), ChunkRows(target), nextI, nextJ, ops)
  {
    hide *;
    ghost var before, after := ChunkRows(base), ChunkRows(target);
    CursorBound(base, left.chunk, left.row, i);
    CursorBound(target, right.chunk, right.row, j);
    ops, nextI, nextJ := visited, i, j;
    var hasLeft, hasRight := left.chunk < |base|, right.chunk < |target|;
    var previous, next := Row("", SymbolBody("", [], [])), Row("", SymbolBody("", [], []));
    if hasLeft {
      CursorRow(base, left.chunk, left.row, i);
      CursorNext(base, left.chunk, left.row, i);
      previous := base[left.chunk].rows[left.row];
    }
    if hasRight {
      CursorRow(target, right.chunk, right.row, j);
      CursorNext(target, right.chunk, right.row, j);
      next := target[right.chunk].rows[right.row];
    }
    var id := if !hasRight || (hasLeft && Less(previous.key, next.key)) then previous.key else next.key;
    LeastIDIs(before, after, i, j, id);
    SymbolStepWalk(before, after, i, j, ops, id);
    var stepLeft, stepRight := hasLeft && previous.key == id, hasRight && next.key == id;
    if stepLeft && !stepRight {
      ops := ops + [Row(id, RemoveSymbol)];
    } else if !stepLeft || previous.value != next.value {
      ops := ops + [Row(id, ReplaceSymbol(next.value))];
    }
    if stepLeft { left.Next(i); nextI := i + 1; }
    if stepRight { right.Next(j); nextJ := j + 1; }
  }

  /** `planFallbackSymbolDelta`: exactly one operation for each symbol whose fact differs,
  although chunks shared by both tables are never looked into. */
  method PlanFallbackSymbols(base: seq<Chunk>, target: seq<Chunk>) returns (ops: SymbolOps)
    requires ChunksFormed(base) && ChunksFormed(target) && Coherent(base, target)
    ensures Sorted(ops) && forall id :: Find(ops, id) == SymbolDiff(Find(ChunkRows(base), id), Find(ChunkRows(target), id))
  {
    hide *;
    ghost var before, after := ChunkRows(base), ChunkRows(target);
    FormedSorted(base);
    FormedSorted(target);
    var left := new SymbolCursor(base);
    var right := new SymbolCursor(target);
    ghost var i: nat, j: nat := 0, 0;
    ops := [];
    SymbolWalkStart(before, after);
    CursorEnd(base, left.chunk, left.row, i);
    CursorEnd(target, right.chunk, right.row, j);
    while left.chunk < |left.chunks| || right.chunk < |right.chunks|
      invariant left.chunks == base && right.chunks == target && left != right
      invariant CursorAt(base, left.chunk, left.row, i) && (left.chunk < |base| <==> i < |before|) && left.chunk <= |base| && i <= |before|
      invariant CursorAt(target, right.chunk, right.row, j) && (right.chunk < |target| <==> j < |after|) && right.chunk <= |target| && j <= |after|
      invariant SymbolsWalked(before, after, i, j, ops)
      decreases |before| - i + |after| - j
    {
      var hasLeft, hasRight := left.chunk < |base|, right.chunk < |target|;
      if hasLeft { CursorRow(base, left.chunk, left.row, i); }
      if hasRight { CursorRow(target, right.chunk, right.row, j); }
      if hasLeft && hasRight && left.row == 0 && right.row == 0
        && |base[left.chunk].rows| == |target[right.chunk].rows| && base[left.chunk].address == target[right.chunk].address
      {
        SharedSkip(base, target, left.chunk, right.chunk, i, j, ops);
        ghost var size := |base[left.chunk].rows|;
        left.chunk := left.chunk + 1;
        right.chunk := right.chunk + 1;
        i, j := i + size, j + size;
      } else {
        ops, i, j := VisitLeast(base, target, left, right, ops, i, j);
      }
      CursorEnd(base, left.chunk, left.row, i);
      CursorEnd(target, right.chunk, right.row, j);
      CursorBound(base, left.chunk, left.row, i);
      CursorBound(target, right.chunk, right.row, j);
    }
    SymbolWalkEnd(before, after, ops);
  }

  lemma FormedSorted(chunks: seq<Chunk>)
    requires ChunksFormed(chunks)
    ensures Sorted(ChunkRows(chunks))
  {
  }

  lemma CursorBound(chunks: seq<Chunk>, chunk: nat, row: nat, n: nat)
    requires CursorAt(chunks, chunk, row, n)
    ensures chunk <= |chunks| && n <= |ChunkRows(chunks)|
  {
  }

  lemma SharedSkip(base: seq<Chunk>, target: seq<Chunk>, c: nat, d: nat, i: nat, j: nat, ops: SymbolOps)
    requires Coherent(base, target) && CursorAt(base, c, 0, i) && CursorAt(target, d, 0, j) && c < |base| && d < |target|
    requires base[c].address == target[d].address && |base[c].rows| == |target[d].rows|
    requires SymbolsWalked(ChunkRows(base), ChunkRows(target), i, j, ops)
    ensures var size := |base[c].rows|;
      && size > 0 && i + size <= |ChunkRows(base)| && j + size <= |ChunkRows(target)|
      && CursorAt(base, c + 1, 0, i + size) && CursorAt(target, d + 1, 0, j + size)
      && SymbolsWalked(ChunkRows(base), ChunkRows(target), i + size, j + size, ops)
  {
    hide CursorAt, SymbolsWalked, ChunkRows;
    CursorSkip(base, c, i);
    CursorSkip(target, d, j);
    assert base[c].rows == target[d].rows;
    SkipEqual(ChunkRows(base), ChunkRows(target), i, j, ops, |base[c].rows|);
  }

  lemma LeastIDIs(previous: seq<Row<SymbolBody>>, next: seq<Row<SymbolBody>>, i: nat, j: nat, id: SymbolID)
    requires i <= |previous| && j <= |next| && (i < |previous| || j < |next|)
    requires id == if j == |next| || (i < |previous| && Less(previous[i].key, next[j].key)) then previous[i].key else next[j].key
    ensures LeastID(previous, next, i, j, id)
    ensures Past1(previous, i, id) == if i < |previous| && previous[i].key == id then i + 1 else i
    ensures Past1(next, j, id) == if j < |next| && next[j].key == id then j + 1 else j
    ensures HitValue(previous, i, id) == if i < |previous| && previous[i].key == id then Some(previous[i].value) else None
    ensures HitValue(next, j, id) == if j < |next| && next[j].key == id then Some(next[j].value) else None
    ensures var edit := SymbolDiff(HitValue(previous, i, id), HitValue(next, j, id));
      && (Hit(previous, i, id) && !Hit(next, j, id) ==> edit == Some(RemoveSymbol))
      && (Hit(next, j, id) && (!Hit(previous, i, id) || previous[i].value != next[j].value) ==> edit == Some(ReplaceSymbol(next[j].value)))
      && (Hit(next, j, id) && Hit(previous, i, id) && previous[i].value == next[j].value ==> edit == None)
    ensures forall ops: SymbolOps, edit :: EmitSymbol(ops, id, edit) == if edit.None? then ops else ops + [Row(id, edit.value)]
    ensures Hit(previous, i, id) <==> i < |previous| && previous[i].key == id
    ensures Hit(next, j, id) <==> j < |next| && next[j].key == id
  {
    hide Less;
    TotalOrder();
  }

  /** Applying the fallback plan to the base symbols gives the target symbols. */
  lemma FallbackSymbolsLand(base: seq<Row<SymbolBody>>, target: seq<Row<SymbolBody>>, ops: SymbolOps)
    requires Sorted(base) && Sorted(target) && Sorted(ops)
    requires forall id :: Find(ops, id) == SymbolDiff(Find(base, id), Find(target, id))
    ensures ApplyAll(SymbolStep, MapRows(ViewOf, base), ops) == MapRows(ViewOf, target)
  {
    hide *;
    var views := MapRows(ViewOf, base);
    MapSorted(ViewOf, base);
    MapSorted(ViewOf, target);
    ApplyAllMeaning(SymbolStep, views, ops);
    forall id ensures Find(ApplyAll(SymbolStep, views, ops), id) == Find(MapRows(ViewOf, target), id) {
      MapFind(ViewOf, base, id);
      MapFind(ViewOf, target, id);
      FoldOne(Find(views, id), ops, id);
      DiffLands(Find(base, id), Find(target, id));
    }
    FindExtensional(ApplyAll(SymbolStep, views, ops), MapRows(ViewOf, target));
  }

  lemma DiffLands(previous: Option<SymbolBody>, next: Option<SymbolBody>)
    ensures var edit := SymbolDiff(previous, next);
      (if edit.Some? then SymbolStep(MapOption(ViewOf, previous), edit.value) else MapOption(ViewOf, previous)) == MapOption(ViewOf, next)
  {
    hide ViewOf;
  }

  /** In a strictly ordered list an ID has one operation. */
  lemma {:induction false} FoldOne(value: Option<SymbolView>, ops: SymbolOps, id: SymbolID)
    requires Sorted(ops)
    ensures FoldKey(SymbolStep, value, ops, id) == if Find(ops, id).Some? then SymbolStep(value, Find(ops, id).value) else value
  {
    hide Less, Find, SymbolStep;
    if ops == [] {
      FindEmpty<SymbolEdit>();
    } else {
      var front, last := ops[..|ops| - 1], ops[|ops| - 1];
      FoldOne(value, front, id);
      assert ops == front + [last];
      FindAppend(front, last, id);
      BelowAbsent(front, last.key);
    }
  }
}
