/** Operation lists over canonical keyed rows.

A sparse application edits one key at a time; a linear application merges the list
with the rows in one pass. `ApplyAll` is the meaning both must have. */
module KeyedEdits {
  import opened Order
  import opened SortedRows

  /** The operations on one key, first to last. */
  function FoldKey<V, O>(step: (Option<V>, O) -> Option<V>, value: Option<V>, ops: seq<Row<O>>, key: string): Option<V> {
    if ops == [] then value
    else
      var before := FoldKey(step, value, ops[..|ops| - 1], key);
      var last := ops[|ops| - 1];
      if last.key == key then step(before, last.value) else before
  }

  function Edited<V, O>(step: (Option<V>, O) -> Option<V>, rows: seq<Row<V>>, op: Row<O>): seq<Row<V>> {
    Change(rows, op.key, step(Find(rows, op.key), op.value))
  }

  function ApplyAll<V, O>(step: (Option<V>, O) -> Option<V>, rows: seq<Row<V>>, ops: seq<Row<O>>): seq<Row<V>> {
    if ops == [] then rows else Edited(step, ApplyAll(step, rows, ops[..|ops| - 1]), ops[|ops| - 1])
  }

  /** Key by key, applying a list is folding that key's own operations. */
  lemma {:induction false} ApplyAllMeaning<V, O>(step: (Option<V>, O) -> Option<V>, rows: seq<Row<V>>, ops: seq<Row<O>>)
    requires Sorted(rows)
    ensures Sorted(ApplyAll(step, rows, ops))
    ensures forall key :: Find(ApplyAll(step, rows, ops), key) == FoldKey(step, Find(rows, key), ops, key)
  {
    hide Sorted, Find, Change;
    if ops != [] {
      var front, last := ops[..|ops| - 1], ops[|ops| - 1];
      ApplyAllMeaning(step, rows, front);
      var before := ApplyAll(step, rows, front);
      ChangeMeaning(before, last.key, step(Find(before, last.key), last.value));
    }
  }

  lemma ApplyNext<V, O>(step: (Option<V>, O) -> Option<V>, rows: seq<Row<V>>, ops: seq<Row<O>>, i: nat)
    requires i < |ops|
    ensures ApplyAll(step, rows, ops[..i + 1]) == Edited(step, ApplyAll(step, rows, ops[..i]), ops[i])
  {
    hide Edited;
    assert ops[..i + 1][..i] == ops[..i];
  }

  lemma FoldNext<V, O>(step: (Option<V>, O) -> Option<V>, value: Option<V>, ops: seq<Row<O>>, key: string, i: nat)
    requires i < |ops|
    ensures FoldKey(step, value, ops[..i + 1], key)
         == var before := FoldKey(step, value, ops[..i], key); if ops[i].key == key then step(before, ops[i].value) else before
  {
    assert ops[..i + 1][..i] == ops[..i];
  }

  // --- runs of operations on one key ---

  lemma ChangeSame<V>(rows: seq<Row<V>>, key: string)
    requires Sorted(rows)
    ensures Change(rows, key, Find(rows, key)) == rows
  {
    hide *;
    ChangeMeaning(rows, key, Find(rows, key));
    FindExtensional(Change(rows, key, Find(rows, key)), rows);
  }

  lemma ChangeTwice<V>(rows: seq<Row<V>>, key: string, first: Option<V>, second: Option<V>)
    requires Sorted(rows)
    ensures Change(Change(rows, key, first), key, second) == Change(rows, key, second)
    ensures Find(Change(rows, key, first), key) == first
  {
    hide *;
    ChangeMeaning(rows, key, first);
    ChangeMeaning(rows, key, second);
    ChangeMeaning(Change(rows, key, first), key, second);
    FindExtensional(Change(Change(rows, key, first), key, second), Change(rows, key, second));
  }

  /** One more operation on the key whose slot already holds `value`. */
  lemma EditAgain<V, O>(step: (Option<V>, O) -> Option<V>, rows: seq<Row<V>>, key: string, value: Option<V>, op: Row<O>)
    requires Sorted(rows) && op.key == key
    ensures Edited(step, Change(rows, key, value), op) == Change(rows, key, step(value, op.value))
  {
    hide Change, Find, Sorted;
    ChangeTwice(rows, key, value, step(value, op.value));
  }

  // --- one merge step ---

  function OneRow<V>(key: string, value: Option<V>): seq<Row<V>> {
    match value
    case None => []
    case Some(v) => [Row(key, v)]
  }

  /** What remains of the right part once the key's own row is consumed. */
  function Past<V>(right: seq<Row<V>>, key: string): seq<Row<V>> {
    if right != [] && right[0].key == key then right[1..] else right
  }

  function Peeked<V>(right: seq<Row<V>>, key: string): Option<V> {
    if right != [] && right[0].key == key then Some(right[0].value) else None
  }

  ghost predicate Boundary<V>(left: seq<Row<V>>, right: seq<Row<V>>, key: string) {
    && Sorted(left + right)
    && (forall k :: 0 <= k < |left| ==> Less(left[k].key, key))
    && (right != [] ==> !Less(right[0].key, key))
  }

  lemma BoundarySplits<V>(left: seq<Row<V>>, right: seq<Row<V>>, key: string)
    requires Boundary(left, right, key)
    ensures SplitsAt(left + right, key, |left|)
  {
    hide Less;
    TotalOrder();
    var rows := left + right;
    forall k | |left| <= k < |rows| ensures !Less(rows[k].key, key) {
      assert rows[|left|] == right[0];
      assert k > |left| ==> Less(rows[|left|].key, rows[k].key);
    }
  }

  lemma SplitIsLowerIndex<V>(rows: seq<Row<V>>, key: string, i: nat)
    requires Sorted(rows) && SplitsAt(rows, key, i)
    ensures LowerIndex(rows, key) == i
  {
    hide Less, LowerIndex;
    LowerIndexMeaning(rows, key);
    var j := LowerIndex(rows, key);
    assert i < |rows| ==> (Less(rows[i].key, key) == (i < j));
    assert j < |rows| ==> (Less(rows[j].key, key) == (j < i));
  }

  /** At the boundary, changing the key edits between the two parts. */
  lemma ChangeAtBoundary<V>(left: seq<Row<V>>, right: seq<Row<V>>, key: string, value: Option<V>)
    requires Boundary(left, right, key)
    ensures Change(left + right, key, value) == left + OneRow(key, value) + Past(right, key)
    ensures Find(left + right, key) == Peeked(right, key)
  {
    hide Sorted, SplitsAt, LowerIndex, Less, Find;
    var rows := left + right;
    BoundarySplits(left, right, key);
    SplitIsLowerIndex(rows, key, |left|);
    FindByIndex(rows, key);
    assert rows[..|left|] == left && rows[|left|..] == right;
    if right != [] { assert rows[|left| + 1..] == right[1..] && rows[|left|] == right[0]; }
  }

  // --- weighted totals ---

  function Weight<V>(weight: V -> nat, value: Option<V>): nat {
    match value
    case None => 0
    case Some(v) => weight(v)
  }

  function Total<V>(weight: V -> nat, rows: seq<Row<V>>): nat {
    if rows == [] then 0 else weight(rows[0].value) + Total(weight, rows[1..])
  }

  lemma {:induction false} TotalConcat<V>(weight: V -> nat, left: seq<Row<V>>, right: seq<Row<V>>)
    ensures Total(weight, left + right) == Total(weight, left) + Total(weight, right)
  {
    if left == [] {
      assert left + right == right;
    } else {
      assert (left + right)[1..] == left[1..] + right;
      TotalConcat(weight, left[1..], right);
    }
  }

  /** A keyed change moves the total by exactly the slot's own weights, never below zero. */
  lemma TotalChange<V>(weight: V -> nat, rows: seq<Row<V>>, key: string, value: Option<V>)
    requires Sorted(rows)
    ensures Weight(weight, Find(rows, key)) <= Total(weight, rows)
    ensures Total(weight, Change(rows, key, value))
         == Total(weight, rows) - Weight(weight, Find(rows, key)) + Weight(weight, value)
  {
    hide Sorted, LowerIndex, Less, Find, Total, Change;
    LowerIndexMeaning(rows, key);
    var i := LowerIndex(rows, key);
    var left, right := rows[..i], rows[i..];
    assert left + right == rows;
    SplitBoundary(rows, key, i);
    ChangeAtBoundary(left, right, key, value);
    TotalConcat(weight, left, right);
    TotalConcat(weight, left + OneRow(key, value), Past(right, key));
    TotalConcat(weight, left, OneRow(key, value));
    TotalOne(weight, key, value);
    TotalPast(weight, right, key);
  }

  lemma SplitBoundary<V>(rows: seq<Row<V>>, key: string, i: nat)
    requires Sorted(rows) && SplitsAt(rows, key, i)
    ensures Boundary(rows[..i], rows[i..], key)
  {
    hide Less, Sorted;
    assert rows[..i] + rows[i..] == rows;
  }

  lemma TotalOne<V>(weight: V -> nat, key: string, value: Option<V>)
    ensures Total(weight, OneRow(key, value)) == Weight(weight, value)
  {
  }

  lemma TotalPast<V>(weight: V -> nat, right: seq<Row<V>>, key: string)
    ensures Total(weight, right) == Weight(weight, Peeked(right, key)) + Total(weight, Past(right, key))
  {
  }

  /** From this many operations on, a delta is applied by one linear merge. */
  const LINEAR_REBUILD_MIN_OPERATIONS: nat := 32

  // --- rows read through a view ---

  function MapRows<V, W>(f: V -> W, rows: seq<Row<V>>): (mapped: seq<Row<W>>)
    ensures |mapped| == |rows|
    ensures forall i :: 0 <= i < |rows| ==> mapped[i] == Row(rows[i].key, f(rows[i].value))
  {
    seq(|rows|, i requires 0 <= i < |rows| => Row(rows[i].key, f(rows[i].value)))
  }

  lemma MapSorted<V, W>(f: V -> W, rows: seq<Row<V>>)
    requires Sorted(rows)
    ensures Sorted(MapRows(f, rows))
  {
  }

  lemma {:induction false} MapFind<V, W>(f: V -> W, rows: seq<Row<V>>, key: string)
    ensures Find(MapRows(f, rows), key) == MapOption(f, Find(rows, key))
  {
    if rows != [] {
      MapFind(f, rows[1..], key);
      assert MapRows(f, rows)[1..] == MapRows(f, rows[1..]);
    }
  }

  /** Viewing commutes with changing. */
  lemma MapChange<V, W>(f: V -> W, rows: seq<Row<V>>, key: string, value: Option<V>)
    requires Sorted(rows)
    ensures MapRows(f, Change(rows, key, value)) == Change(MapRows(f, rows), key, MapOption(f, value))
  {
    hide *;
    var left, right := MapRows(f, Change(rows, key, value)), Change(MapRows(f, rows), key, MapOption(f, value));
    ChangeMeaning(rows, key, value);
    MapSorted(f, rows);
    MapSorted(f, Change(rows, key, value));
    ChangeMeaning(MapRows(f, rows), key, MapOption(f, value));
    forall other ensures Find(left, other) == Find(right, other) {
      MapFind(f, Change(rows, key, value), other);
      MapFind(f, rows, other);
    }
    FindExtensional(left, right);
  }
}
