/** The client's packed, immutable, ordered index (crates/typefacts/src/retained_table.rs).

Leaves are non-empty runs of ordered rows. An update copies one leaf and shares the rest. */
module PackedIndexes {
  import opened SortedRows
  import opened Order

  const LEAF_TARGET: nat := 64
  const LEAF_MAX: nat := 2 * LEAF_TARGET

  datatype PackedIndex<+V> = PackedIndex(leaves: seq<seq<Row<V>>>, len: nat)

  function Flatten<V>(leaves: seq<seq<Row<V>>>): seq<Row<V>> {
    if leaves == [] then [] else leaves[0] + Flatten(leaves[1..])
  }

  function Rows<V>(index: PackedIndex<V>): seq<Row<V>> {
    Flatten(index.leaves)
  }

  ghost predicate Valid<V>(index: PackedIndex<V>) {
    && (forall i :: 0 <= i < |index.leaves| ==> 0 < |index.leaves[i]| <= LEAF_MAX)
    && Sorted(Rows(index))
    && index.len == |Rows(index)|
  }

  ghost predicate LeavesFormed<V>(leaves: seq<seq<Row<V>>>) {
    Sorted(Flatten(leaves)) && (forall i :: 0 <= i < |leaves| ==> leaves[i] != [])
  }

  /** The leaf a key lives in or would be inserted into. */
  ghost predicate Home<V>(leaves: seq<seq<Row<V>>>, key: string, i: nat)
    requires LeavesFormed(leaves)
  {
    && i < |leaves|
    && (forall k :: 0 <= k < i ==> Less(Last(leaves[k]), key))
    && (i < |leaves| - 1 ==> !Less(Last(leaves[i]), key))
  }

  lemma {:induction false} FlattenConcat<V>(a: seq<seq<Row<V>>>, b: seq<seq<Row<V>>>)
    ensures Flatten(a + b) == Flatten(a) + Flatten(b)
  {
    if a == [] {
      assert a + b == b;
    } else {
      assert (a + b)[1..] == a[1..] + b;
      FlattenConcat(a[1..], b);
      assert a[0] + (Flatten(a[1..]) + Flatten(b)) == a[0] + Flatten(a[1..]) + Flatten(b);
    }
  }

  lemma FlattenOne<V>(leaf: seq<Row<V>>)
    ensures Flatten([leaf]) == leaf
  {
    assert [leaf][1..] == [];
  }

  /** The rows before, in and after one leaf. */
  lemma FlattenSplit<V>(leaves: seq<seq<Row<V>>>, i: nat)
    requires i < |leaves|
    ensures Flatten(leaves) == Flatten(leaves[..i]) + leaves[i] + Flatten(leaves[i + 1..])
  {
    hide *;
    SplitAround(leaves, i);
    FlattenConcat(leaves[..i], [leaves[i]] + leaves[i + 1..]);
    FlattenConcat([leaves[i]], leaves[i + 1..]);
    FlattenOne(leaves[i]);
    Associative(Flatten(leaves[..i]), leaves[i], Flatten(leaves[i + 1..]));
  }

  lemma SplitAround<T>(s: seq<T>, i: nat)
    requires i < |s|
    ensures s == s[..i] + ([s[i]] + s[i + 1..])
  {
  }

  lemma Associative<T>(a: seq<T>, b: seq<T>, c: seq<T>)
    ensures a + (b + c) == a + b + c
  {
  }

  /** The leaf a key belongs to: the first whose last key is not below it, else the last leaf. */
  method LeafFor<V>(leaves: seq<seq<Row<V>>>, key: string) returns (leafIndex: nat)
    requires leaves != [] && LeavesFormed(leaves)
    ensures Home(leaves, key, leafIndex)
  {
    LastsOrdered(leaves);
    TotalOrder();
    var low, high := 0, |leaves|;
    while low < high
      invariant 0 <= low <= high <= |leaves|
      invariant forall i :: 0 <= i < low ==> Less(Last(leaves[i]), key)
      invariant forall i :: high <= i < |leaves| ==> !Less(Last(leaves[i]), key)
    {
      var middle := (low + high) / 2;
      if Less(Last(leaves[middle]), key) {
        low := middle + 1;
      } else {
        high := middle;
      }
    }
    leafIndex := if low < |leaves| - 1 then low else |leaves| - 1;
  }

  function Last<V>(leaf: seq<Row<V>>): string
    requires leaf != []
  {
    leaf[|leaf| - 1].key
  }

  /** Rows of an earlier leaf precede rows of a later one. */
  lemma LeavesOrdered<V>(leaves: seq<seq<Row<V>>>, i: nat, j: nat, a: nat, b: nat)
    requires Sorted(Flatten(leaves)) && i < j < |leaves| && a < |leaves[i]| && b < |leaves[j]|
    ensures Less(leaves[i][a].key, leaves[j][b].key)
  {
    var rows := Flatten(leaves);
    FlattenSplit(leaves, j);
    FlattenSplit(leaves[..j], i);
    assert leaves[..j][i] == leaves[i] && leaves[..j][..i] == leaves[..i];
    var at := |Flatten(leaves[..i])| + a;
    assert rows[at] == leaves[i][a];
    assert rows[|Flatten(leaves[..j])| + b] == leaves[j][b];
  }

  lemma LastsOrdered<V>(leaves: seq<seq<Row<V>>>)
    requires Sorted(Flatten(leaves)) && (forall i :: 0 <= i < |leaves| ==> leaves[i] != [])
    ensures forall i, j :: 0 <= i < j < |leaves| ==> Less(Last(leaves[i]), Last(leaves[j]))
  {
    hide Less, Flatten, Sorted;
    forall i, j | 0 <= i < j < |leaves| ensures Less(Last(leaves[i]), Last(leaves[j])) {
      LeavesOrdered(leaves, i, j, |leaves[i]| - 1, |leaves[j]| - 1);
    }
  }

  lemma LeafSorted<V>(leaves: seq<seq<Row<V>>>, i: nat)
    requires Sorted(Flatten(leaves)) && i < |leaves|
    ensures Sorted(leaves[i])
  {
    hide *;
    FlattenSplit(leaves, i);
    SortedMiddle(Flatten(leaves[..i]), leaves[i], Flatten(leaves[i + 1..]));
  }

  lemma SortedMiddle<V>(before: seq<Row<V>>, leaf: seq<Row<V>>, after: seq<Row<V>>)
    requires Sorted(before + leaf + after)
    ensures Sorted(leaf)
  {
    hide Less;
    var rows := before + leaf + after;
    forall a, b | 0 <= a < b < |leaf| ensures Less(leaf[a].key, leaf[b].key) {
      assert rows[|before| + a] == leaf[a] && rows[|before| + b] == leaf[b];
    }
  }

  /** The key's place in the whole is its place in its own leaf. */
  lemma SplitInLeaf<V>(before: seq<Row<V>>, leaf: seq<Row<V>>, after: seq<Row<V>>, key: string, inner: nat)
    requires Sorted(before + leaf + after) && SplitsAt(leaf, key, inner)
    requires forall k :: 0 <= k < |before| ==> Less(before[k].key, key)
    requires leaf != [] && (after != [] ==> !Less(Last(leaf), key))
    ensures SplitsAt(before + leaf + after, key, |before| + inner)
  {
    hide Less;
    TotalOrder();
    var rows := before + leaf + after;
    forall k | 0 <= k < |before| + inner ensures Less(rows[k].key, key) {
      if k >= |before| { assert rows[k] == leaf[k - |before|]; }
    }
    forall k | |before| + inner <= k < |rows| ensures !Less(rows[k].key, key) {
      if k < |before| + |leaf| {
        assert rows[k] == leaf[k - |before|];
      } else {
        assert rows[|before| + |leaf| - 1] == leaf[|leaf| - 1];
        assert Less(rows[|before| + |leaf| - 1].key, rows[k].key);
      }
    }
  }

  lemma SplitUnique<V>(rows: seq<Row<V>>, key: string, i: nat, j: nat)
    requires SplitsAt(rows, key, i) && SplitsAt(rows, key, j)
    ensures i == j
  {
    hide Less;
    if i < j { SplitAgrees(rows, key, i, j, i); }
    if j < i { SplitAgrees(rows, key, i, j, j); }
  }

  lemma SplitAgrees<V>(rows: seq<Row<V>>, key: string, i: nat, j: nat, k: nat)
    requires SplitsAt(rows, key, i) && SplitsAt(rows, key, j) && k < |rows|
    ensures (k < i) == (k < j) == Less(rows[k].key, key)
  {
    hide Less;
    assert Less(rows[k].key, key) == (k < i);
  }

  lemma SplitBeforeLast<V>(leaf: seq<Row<V>>, key: string, inner: nat)
    requires leaf != [] && SplitsAt(leaf, key, inner) && !Less(Last(leaf), key)
    ensures inner < |leaf|
  {
    hide Less;
    SplitAgrees(leaf, key, inner, inner, |leaf| - 1);
  }

  /** Changing a key in its own leaf changes it in the whole sequence of rows. */
  lemma ChangeInLeaf<V>(before: seq<Row<V>>, leaf: seq<Row<V>>, after: seq<Row<V>>, key: string, value: Option<V>)
    requires Sorted(before + leaf + after)
    requires forall k :: 0 <= k < |before| ==> Less(before[k].key, key)
    requires leaf != [] && (after != [] ==> !Less(Last(leaf), key))
    ensures before + Change(leaf, key, value) + after == Change(before + leaf + after, key, value)
  {
    hide *;
    var rows, inner := before + leaf + after, LowerIndex(leaf, key);
    SortedMiddle(before, leaf, after);
    LowerIndexMeaning(leaf, key);
    LowerIndexMeaning(rows, key);
    SplitInLeaf(before, leaf, after, key, inner);
    SplitUnique(rows, key, LowerIndex(rows, key), |before| + inner);
    if after != [] { SplitBeforeLast(leaf, key, inner); }
    SliceChange(before, leaf, after, key, value);
  }

  /** Editing at a leaf-relative index edits the whole at the shifted index. */
  lemma SliceChange<V>(before: seq<Row<V>>, leaf: seq<Row<V>>, after: seq<Row<V>>, key: string, value: Option<V>)
    requires LowerIndex(before + leaf + after, key) == |before| + LowerIndex(leaf, key)
    requires after != [] ==> LowerIndex(leaf, key) < |leaf|
    ensures before + Change(leaf, key, value) + after == Change(before + leaf + after, key, value)
  {
    hide LowerIndex, Less;
    var rows, inner := before + leaf + after, LowerIndex(leaf, key);
    var at := |before| + inner;
    assert HitAt(rows, key, at) == HitAt(leaf, key, inner);
    if inner < |leaf| {
      SliceRemove(before, leaf, after, inner);
      match value { case None => case Some(v) => SliceReplace(before, leaf, after, inner, Row(key, v)); }
    }
    match value { case None => case Some(v) => SliceInsert(before, leaf, after, inner, Row(key, v)); }
  }

  lemma SliceReplace<T>(before: seq<T>, leaf: seq<T>, after: seq<T>, inner: nat, x: T)
    requires inner < |leaf|
    ensures before + leaf[inner := x] + after == (before + leaf + after)[|before| + inner := x]
  {
  }

  lemma SliceRemove<T>(before: seq<T>, leaf: seq<T>, after: seq<T>, inner: nat)
    requires inner < |leaf|
    ensures var rows, at := before + leaf + after, |before| + inner;
      before + (leaf[..inner] + leaf[inner + 1..]) + after == rows[..at] + rows[at + 1..]
  {
    var rows, at := before + leaf + after, |before| + inner;
    assert rows[..at] == before + leaf[..inner];
    assert rows[at + 1..] == leaf[inner + 1..] + after;
  }

  lemma SliceInsert<T>(before: seq<T>, leaf: seq<T>, after: seq<T>, inner: nat, x: T)
    requires inner <= |leaf|
    ensures var rows, at := before + leaf + after, |before| + inner;
      before + (leaf[..inner] + [x] + leaf[inner..]) + after == rows[..at] + [x] + rows[at..]
  {
    var rows, at := before + leaf + after, |before| + inner;
    assert rows[..at] == before + leaf[..inner];
    assert rows[at..] == leaf[inner..] + after;
  }

  /** `from_sorted`: full leaves of the target size, then one partial leaf. */
  method FromSorted<V>(rows: seq<Row<V>>) returns (index: PackedIndex<V>)
    requires Sorted(rows)
    ensures Valid(index) && Rows(index) == rows
  {
    var leaves: seq<seq<Row<V>>> := [];
    var taken := 0;
    while taken < |rows|
      invariant 0 <= taken <= |rows| && Flatten(leaves) == rows[..taken]
      invariant forall i :: 0 <= i < |leaves| ==> 0 < |leaves[i]| <= LEAF_TARGET
    {
      var end := if taken + LEAF_TARGET <= |rows| then taken + LEAF_TARGET else |rows|;
      FlattenConcat(leaves, [rows[taken..end]]);
      FlattenOne(rows[taken..end]);
      leaves := leaves + [rows[taken..end]];
      assert rows[..taken] + rows[taken..end] == rows[..end];
      taken := end;
    }
    assert rows[..|rows|] == rows;
    index := PackedIndex(leaves, |rows|);
  }

  /** `get`: a binary search for the leaf, then one inside it. */
  method Get<V>(index: PackedIndex<V>, key: string) returns (value: Option<V>)
    requires Valid(index)
    ensures value == Find(Rows(index), key)
  {
    if index.leaves == [] { return None; }
    var leafIndex := LeafFor(index.leaves, key);
    var leaf := index.leaves[leafIndex];
    LeafSorted(index.leaves, leafIndex);
    var at := Search(leaf, key);
    FindHome(index.leaves, key, leafIndex);
    FindByIndex(leaf, key);
    value := if at < |leaf| && leaf[at].key == key then Some(leaf[at].value) else None;
  }

  lemma FindHome<V>(leaves: seq<seq<Row<V>>>, key: string, leafIndex: nat)
    requires LeavesFormed(leaves) && Home(leaves, key, leafIndex)
    ensures Find(Flatten(leaves), key) == Find(leaves[leafIndex], key)
  {
    hide Find, Less, Flatten, Sorted;
    var before, leaf, after := Flatten(leaves[..leafIndex]), leaves[leafIndex], Flatten(leaves[leafIndex + 1..]);
    FlattenSplit(leaves, leafIndex);
    BeforeBelow(leaves, key, leafIndex);
    BelowAbsent(before, key);
    FindConcat(before + leaf, after, key);
    FindConcat(before, leaf, key);
    if Find(leaf, key).None? {
      AfterAbove(leaves, key, leafIndex);
    }
  }

  lemma BeforeBelow<V>(leaves: seq<seq<Row<V>>>, key: string, leafIndex: nat)
    requires LeavesFormed(leaves) && Home(leaves, key, leafIndex)
    ensures forall k :: 0 <= k < |Flatten(leaves[..leafIndex])| ==> Less(Flatten(leaves[..leafIndex])[k].key, key)
  {
    TotalOrder();
    var front := leaves[..leafIndex];
    FlattenSplit(leaves, leafIndex);
    if leafIndex > 0 {
      var rows := Flatten(front);
      FlattenSplit(front, leafIndex - 1);
      assert front[leafIndex - 1 + 1..] == [];
      assert front[leafIndex - 1] == leaves[leafIndex - 1];
      assert rows[|rows| - 1].key == Last(leaves[leafIndex - 1]);
      forall k | 0 <= k < |rows| ensures Less(rows[k].key, key) {
        assert Flatten(leaves)[k] == rows[k] && Flatten(leaves)[|rows| - 1] == rows[|rows| - 1];
      }
    }
  }

  lemma AfterAbove<V>(leaves: seq<seq<Row<V>>>, key: string, leafIndex: nat)
    requires LeavesFormed(leaves) && Home(leaves, key, leafIndex)
    ensures Find(Flatten(leaves[leafIndex + 1..]), key) == None
  {
    TotalOrder();
    FlattenSplit(leaves, leafIndex);
    var rows, leaf := Flatten(leaves), leaves[leafIndex];
    var start := |Flatten(leaves[..leafIndex])| + |leaf|;
    var after := Flatten(leaves[leafIndex + 1..]);
    FindAbsent(after, key);
    forall k | 0 <= k < |after| ensures after[k].key != key {
      assert rows[start + k] == after[k] && rows[start - 1] == leaf[|leaf| - 1];
      assert leafIndex < |leaves| - 1;
    }
  }

  /** Binary search in one leaf, then replace, insert or remove the key's row. */
  method EditLeaf<V>(leaf: seq<Row<V>>, key: string, replacement: Option<V>) returns (edited: seq<Row<V>>)
    requires Sorted(leaf)
    ensures edited == Change(leaf, key, replacement)
  {
    hide Sorted, LowerIndex, Less;
    var at := Search(leaf, key);
    edited := leaf;
    match replacement {
      case Some(value) =>
        if at < |leaf| && leaf[at].key == key {
          edited := edited[at := Row(key, value)];
        } else {
          edited := edited[..at] + [Row(key, value)] + edited[at..];
        }
      case None =>
        if at < |leaf| && leaf[at].key == key {
          edited := edited[..at] + edited[at + 1..];
        }
    }
  }

  /** All leaves but one are the previous ones, untouched and in place. */
  ghost predicate OneLeafEdited<V>(leaves: seq<seq<Row<V>>>, next: seq<seq<Row<V>>>) {
    leaves != [] ==> exists i, n :: EditedAt(leaves, next, i, n)
  }

  /** Leaf `i` became `n` leaves. */
  ghost predicate EditedAt<V>(leaves: seq<seq<Row<V>>>, next: seq<seq<Row<V>>>, i: nat, n: nat) {
    i < |leaves| && n <= 2 && i + n <= |next| && next[..i] == leaves[..i] && next[i + n..] == leaves[i + 1..]
  }

  /** `updated`: one keyed replacement or removal. The rows are those of a sorted map
  update, and every leaf but the key's own is shared in place. */
  method Updated<V>(index: PackedIndex<V>, key: string, replacement: Option<V>) returns (next: PackedIndex<V>)
    requires Valid(index)
    ensures Valid(next) && Rows(next) == Change(Rows(index), key, replacement)
    ensures OneLeafEdited(index.leaves, next.leaves)
  {
    hide *;
    Limits();
    if index.leaves == [] {
      EmptyIndex(index, key, replacement);
      match replacement {
        case None => next := PackedIndex([], 0);
        case Some(value) => next := FromSorted([Row(key, value)]);
      }
      EmptyShared(index.leaves, next.leaves);
      return;
    }
    ValidParts(index);
    var leafIndex := LeafFor(index.leaves, key);
    LeafSorted(index.leaves, leafIndex);
    var leaf := EditLeaf(index.leaves[leafIndex], key, replacement);
    EditLength(index.leaves[leafIndex], key, replacement);
    var middle: seq<seq<Row<V>>>;
    if leaf == [] {
      middle := [];
    } else if |leaf| > LEAF_MAX {
      middle := [leaf[..LEAF_TARGET], leaf[LEAF_TARGET..]];
    } else {
      middle := [leaf];
    }
    MiddleFlat(leaf, middle);
    var leaves := index.leaves[..leafIndex] + middle + index.leaves[leafIndex + 1..];
    UpdatedRows(index, key, replacement, leafIndex, middle);
    next := PackedIndex(leaves, CountRows(leaves));
    UpdatedShape(index, leafIndex, middle, next);
    ValidParts(next);
  }

  lemma EmptyIndex<V>(index: PackedIndex<V>, key: string, replacement: Option<V>)
    requires index.leaves == []
    ensures Rows(index) == [] && OneLeafEdited(index.leaves, index.leaves)
    ensures Valid(PackedIndex(index.leaves, 0)) && Rows(PackedIndex(index.leaves, 0)) == []
    ensures Change([], key, replacement) == (match replacement case None => [] case Some(value) => [Row(key, value)])
    ensures replacement.Some? ==> Sorted([Row(key, replacement.value)])
  {
  }

  lemma Limits()
    ensures LEAF_TARGET == 64 && LEAF_MAX == 128
  {
  }

  lemma EmptyShared<V>(leaves: seq<seq<Row<V>>>, next: seq<seq<Row<V>>>)
    requires leaves == []
    ensures OneLeafEdited(leaves, next)
  {
  }

  lemma ValidParts<V>(index: PackedIndex<V>)
    requires Valid(index)
    ensures Sorted(Flatten(index.leaves)) && Rows(index) == Flatten(index.leaves) && LeavesFormed(index.leaves)
    ensures forall i :: 0 <= i < |index.leaves| ==> 0 < |index.leaves[i]| <= LEAF_MAX
  {
  }

  lemma EditLength<V>(leaf: seq<Row<V>>, key: string, replacement: Option<V>)
    ensures |leaf| - 1 <= |Change(leaf, key, replacement)| <= |leaf| + 1
  {
  }

  lemma UpdatedShape<V>(index: PackedIndex<V>, leafIndex: nat, middle: seq<seq<Row<V>>>, next: PackedIndex<V>)
    requires Valid(index) && leafIndex < |index.leaves| && |middle| <= 2
    requires forall i :: 0 <= i < |middle| ==> 0 < |middle[i]| <= LEAF_MAX
    requires next.leaves == index.leaves[..leafIndex] + middle + index.leaves[leafIndex + 1..]
    requires next.len == |Flatten(next.leaves)| && Sorted(Flatten(next.leaves))
    ensures Valid(next) && OneLeafEdited(index.leaves, next.leaves)
  {
    hide Flatten, Sorted;
    assert EditedAt(index.leaves, next.leaves, leafIndex, |middle|);
    forall i | 0 <= i < |next.leaves| ensures 0 < |next.leaves[i]| <= LEAF_MAX {
      if i < leafIndex {
        assert next.leaves[i] == index.leaves[i];
      } else if i < leafIndex + |middle| {
        assert next.leaves[i] == middle[i - leafIndex];
      } else {
        assert next.leaves[i] == index.leaves[i - |middle| + 1];
      }
    }
  }

  /** The sum of the leaf lengths. */
  function CountRows<V>(leaves: seq<seq<Row<V>>>): (count: nat)
    ensures count == |Flatten(leaves)|
  {
    if leaves == [] then 0 else |leaves[0]| + CountRows(leaves[1..])
  }

  lemma MiddleFlat<V>(leaf: seq<Row<V>>, middle: seq<seq<Row<V>>>)
    requires middle == (if leaf == [] then [] else if |leaf| > LEAF_MAX then [leaf[..LEAF_TARGET], leaf[LEAF_TARGET..]] else [leaf])
    ensures Flatten(middle) == leaf
  {
    if |leaf| > LEAF_MAX {
      assert middle == [leaf[..LEAF_TARGET]] + [leaf[LEAF_TARGET..]];
      FlattenConcat([leaf[..LEAF_TARGET]], [leaf[LEAF_TARGET..]]);
      FlattenOne(leaf[..LEAF_TARGET]);
      FlattenOne(leaf[LEAF_TARGET..]);
    } else if leaf != [] {
      FlattenOne(leaf);
    }
  }

  lemma UpdatedRows<V>(index: PackedIndex<V>, key: string, replacement: Option<V>, leafIndex: nat, middle: seq<seq<Row<V>>>)
    requires Valid(index) && Home(index.leaves, key, leafIndex)
    requires Flatten(middle) == Change(index.leaves[leafIndex], key, replacement)
    ensures var leaves := index.leaves[..leafIndex] + middle + index.leaves[leafIndex + 1..];
      Flatten(leaves) == Change(Rows(index), key, replacement) && Sorted(Flatten(leaves))
  {
    var left, right := index.leaves[..leafIndex], index.leaves[leafIndex + 1..];
    FlattenConcat(left + middle, right);
    FlattenConcat(left, middle);
    FlattenSplit(index.leaves, leafIndex);
    BeforeBelow(index.leaves, key, leafIndex);
    assert Flatten(right) != [] ==> leafIndex < |index.leaves| - 1;
    ChangeInLeaf(Flatten(left), index.leaves[leafIndex], Flatten(right), key, replacement);
    ChangeMeaning(Rows(index), key, replacement);
  }
}
