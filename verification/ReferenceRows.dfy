/** The merged rows of the reference index (internal/typefacts/tsgo/references.go:224-256, 258-348):
one list a symbol, in path order, built from per-file spans and patched in place. */
module ReferenceRows {
  import opened Order
  import opened Facts

  datatype Span = Span(start: int, end: int)

  /** A span under the index of its path in the compact path table. */
  datatype IndexedReference = IndexedReference(path: nat, start: int, end: int)

  type Refs = map<SymbolID, seq<Span>>

  type Merged = map<SymbolID, seq<IndexedReference>>

  /** One scanned file: its references by canonical symbol. */
  datatype FileReferences = FileReferences(refs: Refs, durable: bool)

  /** What scanning every source file of a program gives. */
  type Scans = map<Path, FileReferences>

  function SpansAt(refs: Refs, id: SymbolID): seq<Span> {
    if id in refs then refs[id] else []
  }

  function RowsFor(merged: Merged, id: SymbolID): seq<IndexedReference> {
    if id in merged then merged[id] else []
  }

  predicate StrictSpans(spans: seq<Span>) {
    forall i, j :: 0 <= i < j < |spans| ==> spans[i].start < spans[j].start
  }

  function Tag(index: nat, spans: seq<Span>): (rows: seq<IndexedReference>)
    ensures |rows| == |spans|
    ensures forall k :: 0 <= k < |spans| ==> rows[k] == IndexedReference(index, spans[k].start, spans[k].end)
  {
    seq(|spans|, (k: int) requires 0 <= k < |spans| => IndexedReference(index, spans[k].start, spans[k].end))
  }

  /** The rows of one symbol, given its spans at every path. */
  function Gather(columns: seq<seq<Span>>): seq<IndexedReference> {
    if columns == [] then [] else Gather(columns[..|columns| - 1]) + Tag(|columns| - 1, columns[|columns| - 1])
  }

  /** A gathered row sits under its own path. */
  lemma {:induction false} GatherMember(columns: seq<seq<Span>>, row: IndexedReference)
    ensures row in Gather(columns) <==> row.path < |columns| && row in Tag(row.path, columns[row.path])
  {
    if columns != [] {
      var n := |columns| - 1;
      GatherMember(columns[..n], row);
    }
  }

  /** The rows determine the spans at every path. */
  lemma {:induction false} GatherInjective(a: seq<seq<Span>>, b: seq<seq<Span>>)
    requires |a| == |b| && Gather(a) == Gather(b)
    ensures a == b
  {
    if a != [] {
      var n := |a| - 1;
      LastColumn(a);
      LastColumn(b);
      hide Gather, Tag, WithoutPath;
      GatherInjective(a[..n], b[..n]);
      TailSame(Gather(a[..n]), Tag(n, a[n]), Tag(n, b[n]));
      TagInjective(n, a[n], b[n]);
      assert a == a[..n] + [a[n]] && b == b[..n] + [b[n]];
    }
  }

  lemma TailSame<T>(front: seq<T>, a: seq<T>, b: seq<T>)
    requires front + a == front + b
    ensures a == b
  {
    assert a == (front + a)[|front|..] && b == (front + b)[|front|..];
  }

  lemma TagInjective(index: nat, a: seq<Span>, b: seq<Span>)
    requires Tag(index, a) == Tag(index, b)
    ensures a == b
  {
    assert |a| == |b|;
    forall k | 0 <= k < |a| ensures a[k] == b[k] {
      assert Tag(index, a)[k] == Tag(index, b)[k];
    }
  }

  lemma LastColumn(columns: seq<seq<Span>>)
    requires columns != []
    ensures var n := |columns| - 1;
      Gather(columns) == WithoutPath(Gather(columns), n) + Tag(n, columns[n]) && WithoutPath(Gather(columns), n) == Gather(columns[..n])
  {
    var n := |columns| - 1;
    var emptied := columns[n := []];
    GatherWithout(columns, n);
    GatherLast(columns);
    GatherLast(emptied);
    hide Gather, WithoutPath;
    assert emptied[..n] == columns[..n] && emptied[n] == [];
    assert Tag(n, []) == [];
    hide Tag;
    assert Gather(columns[..n]) + [] == Gather(columns[..n]);
  }

  lemma GatherLast(columns: seq<seq<Span>>)
    requires columns != []
    ensures var n := |columns| - 1; Gather(columns) == Gather(columns[..n]) + Tag(n, columns[n])
  {
  }

  // --- removing a path ---

  function WithoutPath(rows: seq<IndexedReference>, index: nat): seq<IndexedReference> {
    if rows == [] then []
    else
      var front, last := WithoutPath(rows[..|rows| - 1], index), rows[|rows| - 1];
      if last.path == index then front else front + [last]
  }

  lemma {:induction false} WithoutConcat(a: seq<IndexedReference>, b: seq<IndexedReference>, index: nat)
    ensures WithoutPath(a + b, index) == WithoutPath(a, index) + WithoutPath(b, index)
  {
    if b == [] {
      assert a + b == a;
    } else {
      WithoutConcat(a, b[..|b| - 1], index);
      assert (a + b)[..|a + b| - 1] == a + b[..|b| - 1];
    }
  }

  lemma {:induction false} WithoutTag(rows: seq<IndexedReference>, path: nat, index: nat)
    requires forall k :: 0 <= k < |rows| ==> rows[k].path == path
    ensures WithoutPath(rows, index) == if path == index then [] else rows
  {
    if rows != [] {
      WithoutTag(rows[..|rows| - 1], path, index);
      assert rows == rows[..|rows| - 1] + [rows[|rows| - 1]];
    }
  }

  /** Filtering out a path empties its column. */
  lemma {:induction false} GatherWithout(columns: seq<seq<Span>>, index: nat)
    ensures WithoutPath(Gather(columns), index) == Gather(if index < |columns| then columns[index := []] else columns)
  {
    if columns != [] {
      var n := |columns| - 1;
      var tagged := Tag(n, columns[n]);
      GatherWithout(columns[..n], index);
      WithoutConcat(Gather(columns[..n]), tagged, index);
      WithoutTag(tagged, n, index);
      if index < |columns| {
        var emptied := columns[index := []];
        assert emptied[..n] == if index < n then columns[..n][index := []] else columns[..n];
        assert index == n ==> Tag(n, emptied[n]) == [];
      }
    }
  }

  // --- adding a path ---

  lemma {:induction false} GatherAdded(columns: seq<seq<Span>>, index: nat, spans: seq<Span>)
    requires index < |columns| && columns[index] == []
    ensures multiset(Gather(columns[index := spans])) == multiset(Gather(columns) + Tag(index, spans))
  {
    var n := |columns| - 1;
    var next := columns[index := spans];
    if index == n {
      assert next[..n] == columns[..n];
      assert Tag(n, columns[n]) == [];
      assert Gather(columns) == Gather(columns[..n]);
    } else {
      GatherAdded(columns[..n], index, spans);
      assert next[..n] == columns[..n][index := spans];
      assert next[n] == columns[n];
    }
  }

  // --- order ---

  predicate RefLess(a: IndexedReference, b: IndexedReference) {
    a.path < b.path || (a.path == b.path && (a.start < b.start || (a.start == b.start && a.end < b.end)))
  }

  ghost predicate StrictRefs(rows: seq<IndexedReference>) {
    forall i, j :: 0 <= i < j < |rows| ==> RefLess(rows[i], rows[j])
  }

  lemma {:induction false} GatherStrict(columns: seq<seq<Span>>)
    requires forall k :: 0 <= k < |columns| ==> StrictSpans(columns[k])
    ensures StrictRefs(Gather(columns)) && forall k :: 0 <= k < |Gather(columns)| ==> Gather(columns)[k].path < |columns|
  {
    if columns != [] {
      var n := |columns| - 1;
      GatherStrict(columns[..n]);
      assert StrictSpans(columns[n]);
    }
  }

  function InsertRef(row: IndexedReference, rows: seq<IndexedReference>): seq<IndexedReference> {
    if rows == [] then [row] else if RefLess(rows[0], row) then [rows[0]] + InsertRef(row, rows[1..]) else [row] + rows
  }

  /** The library's sort by path index, start and end. */
  function SortRefs(rows: seq<IndexedReference>): seq<IndexedReference> {
    if rows == [] then [] else InsertRef(rows[0], SortRefs(rows[1..]))
  }

  ghost predicate OrderedRefs(rows: seq<IndexedReference>) {
    forall i, j :: 0 <= i < j < |rows| ==> !RefLess(rows[j], rows[i])
  }

  lemma RefOrder()
    ensures forall a, b :: RefLess(a, b) ==> !RefLess(b, a)
    ensures forall a, b, c :: RefLess(a, b) && !RefLess(c, b) ==> !RefLess(c, a)
    ensures forall a, b :: !RefLess(a, b) && !RefLess(b, a) ==> a == b
  {
  }

  lemma PrependOrdered(first: IndexedReference, rest: seq<IndexedReference>)
    requires OrderedRefs(rest) && forall x :: x in multiset(rest) ==> !RefLess(x, first)
    ensures OrderedRefs([first] + rest)
  {
    hide RefLess;
    forall k | 0 <= k < |rest| ensures !RefLess(rest[k], first) {
      assert rest[k] in multiset(rest);
    }
  }

  lemma FirstIsLeast(rows: seq<IndexedReference>)
    requires OrderedRefs(rows) && rows != []
    ensures OrderedRefs(rows[1..]) && (forall x :: x in multiset(rows) ==> !RefLess(x, rows[0]))
  {
    hide RefLess;
    RefOrder();
    forall x | x in multiset(rows) ensures !RefLess(x, rows[0]) {
      var k :| 0 <= k < |rows| && rows[k] == x;
    }
  }

  lemma SplitFirst(rows: seq<IndexedReference>)
    requires rows != []
    ensures multiset(rows) == multiset{rows[0]} + multiset(rows[1..])
  {
    assert rows == [rows[0]] + rows[1..];
  }

  lemma {:induction false} InsertRefMeaning(row: IndexedReference, rows: seq<IndexedReference>)
    requires OrderedRefs(rows)
    ensures OrderedRefs(InsertRef(row, rows)) && multiset(InsertRef(row, rows)) == multiset{row} + multiset(rows)
  {
    hide RefLess, OrderedRefs;
    RefOrder();
    if rows == [] {
      PrependOrdered(row, []) by { assert OrderedRefs([]) by { NoneOrdered(); } }
      assert [row] + [] == [row];
    } else {
      FirstIsLeast(rows);
      SplitFirst(rows);
      if RefLess(rows[0], row) {
        InsertRefMeaning(row, rows[1..]);
        PrependOrdered(rows[0], InsertRef(row, rows[1..]));
      } else {
        PrependOrdered(row, rows);
      }
    }
  }

  lemma NoneOrdered()
    ensures OrderedRefs([])
  {
  }

  lemma {:induction false} SortRefsMeaning(rows: seq<IndexedReference>)
    ensures OrderedRefs(SortRefs(rows)) && multiset(SortRefs(rows)) == multiset(rows)
  {
    if rows != [] {
      SortRefsMeaning(rows[1..]);
      InsertRefMeaning(rows[0], SortRefs(rows[1..]));
      assert rows == [rows[0]] + rows[1..];
    }
  }

  lemma StrictIsOrdered(rows: seq<IndexedReference>)
    requires StrictRefs(rows)
    ensures OrderedRefs(rows) && (rows != [] ==> StrictRefs(rows[1..]))
  {
    hide RefLess;
    RefOrder();
  }

  lemma {:induction false} OrderedUnique(a: seq<IndexedReference>, b: seq<IndexedReference>)
    requires OrderedRefs(a) && StrictRefs(b) && multiset(a) == multiset(b)
    ensures a == b
  {
    hide RefLess, OrderedRefs, StrictRefs;
    assert |a| == |multiset(a)| == |multiset(b)| == |b|;
    if a != [] {
      StrictIsOrdered(b);
      FirstIsLeast(a);
      FirstIsLeast(b);
      SplitFirst(a);
      SplitFirst(b);
      RefOrder();
      assert a[0] in multiset(b) && b[0] in multiset(a);
      assert a[0] == b[0];
      assert multiset(a[1..]) == multiset(a) - multiset{a[0]};
      assert multiset(b[1..]) == multiset(b) - multiset{b[0]};
      OrderedUnique(a[1..], b[1..]);
      assert a == [a[0]] + a[1..] && b == [b[0]] + b[1..];
    }
  }

  /** Sorting a permutation of the gathered rows gives them. */
  lemma SortedIsGather(rows: seq<IndexedReference>, columns: seq<seq<Span>>)
    requires forall k :: 0 <= k < |columns| ==> StrictSpans(columns[k])
    requires multiset(rows) == multiset(Gather(columns))
    ensures SortRefs(rows) == Gather(columns)
  {
    GatherStrict(columns);
    SortRefsMeaning(rows);
    OrderedUnique(SortRefs(rows), Gather(columns));
  }

  // --- columns ---

  /** One symbol's spans at every path of the table, from what each path holds. */
  function Columns(paths: seq<Path>, held: map<Path, Refs>, id: SymbolID): (columns: seq<seq<Span>>)
    ensures |columns| == |paths|
    ensures forall k :: 0 <= k < |paths| ==> columns[k] == HeldAt(held, paths[k], id)
  {
    seq(|paths|, (k: int) requires 0 <= k < |paths| => HeldAt(held, paths[k], id))
  }

  function HeldAt(held: map<Path, Refs>, path: Path, id: SymbolID): seq<Span> {
    if path in held then SpansAt(held[path], id) else []
  }

  ghost predicate HeldStrict(held: map<Path, Refs>) {
    forall path, id :: path in held && id in held[path] ==> StrictSpans(held[path][id])
  }

  ghost predicate Listed(merged: Merged, paths: seq<Path>, held: map<Path, Refs>) {
    forall id :: RowsFor(merged, id) == Gather(Columns(paths, held, id))
  }

  /** Every identifier's rows, up to order. */
  ghost predicate ListedUnordered(merged: Merged, paths: seq<Path>, held: map<Path, Refs>, touched: set<SymbolID>) {
    forall id :: if id in touched then multiset(RowsFor(merged, id)) == multiset(Gather(Columns(paths, held, id)))
      else RowsFor(merged, id) == Gather(Columns(paths, held, id))
  }

  /** `sort.SearchStrings`: the first index whose path is not below. */
  function SearchStrings(paths: seq<Path>, path: Path): nat {
    if paths == [] || !Less(paths[0], path) then 0 else 1 + SearchStrings(paths[1..], path)
  }

  lemma {:induction false} SearchFinds(paths: seq<Path>, k: nat)
    requires StrictlyOrdered(paths) && k < |paths|
    ensures SearchStrings(paths, paths[k]) == k
  {
    TotalOrder();
    if k > 0 {
      assert Less(paths[0], paths[k]);
      SearchFinds(paths[1..], k - 1);
    }
  }

  lemma ColumnsChange(paths: seq<Path>, held: map<Path, Refs>, next: map<Path, Refs>, k: nat, id: SymbolID)
    requires StrictlyOrdered(paths) && k < |paths|
    requires forall path :: path != paths[k] ==> HeldAt(next, path, id) == HeldAt(held, path, id)
    ensures Columns(paths, next, id) == Columns(paths, held, id)[k := HeldAt(next, paths[k], id)]
  {
    TotalOrder();
  }

  /** Filtering one symbol's rows at an evicted path. */
  lemma EvictRows(merged: Merged, paths: seq<Path>, held: map<Path, Refs>, k: nat, id: SymbolID)
    requires Listed(merged, paths, held) && StrictlyOrdered(paths) && k < |paths|
    ensures WithoutPath(RowsFor(merged, id), k) == Gather(Columns(paths, held - {paths[k]}, id))
  {
    hide Gather;
    GatherWithout(Columns(paths, held, id), k);
    ColumnsChange(paths, held, held - {paths[k]}, k, id);
  }

  lemma EvictNothing(paths: seq<Path>, held: map<Path, Refs>, k: nat, id: SymbolID)
    requires StrictlyOrdered(paths) && k < |paths| && HeldAt(held, paths[k], id) == []
    ensures Columns(paths, held - {paths[k]}, id) == Columns(paths, held, id)
  {
    ColumnsChange(paths, held, held - {paths[k]}, k, id);
  }

  /** Appending one symbol's rescanned spans. */
  lemma RefreshRows(merged: Merged, paths: seq<Path>, held: map<Path, Refs>, touched: set<SymbolID>, k: nat, refs: Refs, id: SymbolID)
    requires ListedUnordered(merged, paths, held, touched) && StrictlyOrdered(paths) && k < |paths| && paths[k] !in held
    ensures multiset(RowsFor(merged, id) + Tag(k, SpansAt(refs, id))) == multiset(Gather(Columns(paths, held[paths[k] := refs], id)))
    ensures id !in refs ==> Columns(paths, held[paths[k] := refs], id) == Columns(paths, held, id)
  {
    hide Gather;
    var columns := Columns(paths, held, id);
    GatherAdded(columns, k, SpansAt(refs, id));
    ColumnsChange(paths, held, held[paths[k] := refs], k, id);
  }
}
