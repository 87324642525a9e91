/** Canonically ordered keyed rows: the shape every table of the protocol shares.

Path tables, symbol tables and per-path reference runs are all sequences of keyed
rows whose keys strictly increase. `Find` is the reading of such a sequence as a
finite map; `FindExtensional` says that the reading determines the sequence. */
module SortedRows {
  import opened Order

  datatype Option<+T> = None | Some(value: T)

  function MapOption<V, W>(f: V -> W, value: Option<V>): Option<W> {
    match value
    case None => None
    case Some(v) => Some(f(v))
  }

  datatype Row<+V> = Row(key: string, value: V)

  ghost predicate Sorted<V>(rows: seq<Row<V>>) {
    forall i, j :: 0 <= i < j < |rows| ==> Less(rows[i].key, rows[j].key)
  }

  /** Every key is below `key`. */
  ghost predicate Below<V>(rows: seq<Row<V>>, key: string) {
    forall k :: 0 <= k < |rows| ==> Less(rows[k].key, key)
  }

  function Find<V>(rows: seq<Row<V>>, key: string): Option<V> {
    if |rows| == 0 then None
    else if rows[0].key == key then Some(rows[0].value)
    else Find(rows[1..], key)
  }

  ghost predicate HasKey<V>(rows: seq<Row<V>>, key: string) {
    exists i :: 0 <= i < |rows| && rows[i].key == key
  }

  lemma FindEmpty<V>()
    ensures forall key :: Find<V>([], key) == None
  {
  }

  lemma {:induction false} FindAt<V>(rows: seq<Row<V>>, i: nat)
    requires Sorted(rows) && i < |rows|
    ensures Find(rows, rows[i].key) == Some(rows[i].value)
  {
    if i > 0 {
      TotalOrder();
      FindAt(rows[1..], i - 1);
    }
  }

  lemma {:induction false} FindAbsent<V>(rows: seq<Row<V>>, key: string)
    ensures Find(rows, key).None? <==> !HasKey(rows, key)
  {
    if |rows| > 0 {
      FindAbsent(rows[1..], key);
      if HasKey(rows[1..], key) {
        var i :| 0 <= i < |rows[1..]| && rows[1..][i].key == key;
        assert rows[i + 1].key == key;
      }
      if HasKey(rows, key) && rows[0].key != key {
        var i :| 0 <= i < |rows| && rows[i].key == key;
        assert rows[1..][i - 1].key == key;
      }
    }
  }

  /** Where a found value sits. */
  lemma FindWitness<V>(rows: seq<Row<V>>, key: string) returns (i: nat)
    requires Sorted(rows) && Find(rows, key).Some?
    ensures i < |rows| && rows[i].key == key && Find(rows, key) == Some(rows[i].value)
  {
    FindAbsent(rows, key);
    i :| 0 <= i < |rows| && rows[i].key == key;
    FindAt(rows, i);
  }

  lemma {:induction false} FindConcat<V>(left: seq<Row<V>>, right: seq<Row<V>>, key: string)
    ensures Find(left + right, key) == (if Find(left, key).Some? then Find(left, key) else Find(right, key))
  {
    if |left| == 0 {
      assert left + right == right;
    } else {
      assert (left + right)[1..] == left[1..] + right;
      FindConcat(left[1..], right, key);
    }
  }

  /** Two ordered row sequences that answer every key alike are the same sequence. */
  lemma {:induction false} FindExtensional<V>(a: seq<Row<V>>, b: seq<Row<V>>)
    requires Sorted(a) && Sorted(b)
    requires forall key :: Find(a, key) == Find(b, key)
    ensures a == b
  {
    TotalOrder();
    if |a| > 0 { FindAt(a, 0); assert Find(b, a[0].key).Some?; }
    if |b| > 0 { FindAt(b, 0); assert Find(a, b[0].key).Some?; }
    if |a| > 0 && |b| > 0 {
      FindAt(a, 0);
      FindAt(b, 0);
      var i := FindWitness(b, a[0].key);
      var j := FindWitness(a, b[0].key);
      assert i == 0 && j == 0;
      assert a[0] == b[0];
      forall key ensures Find(a[1..], key) == Find(b[1..], key) {
        if key == a[0].key {
          HeadAbsent(a);
          HeadAbsent(b);
        } else {
          assert Find(a, key) == Find(b, key);
        }
      }
      FindExtensional(a[1..], b[1..]);
      assert a == [a[0]] + a[1..] && b == [b[0]] + b[1..];
    }
  }

  lemma HeadAbsent<V>(rows: seq<Row<V>>)
    requires Sorted(rows) && |rows| > 0
    ensures Find(rows[1..], rows[0].key) == None
  {
    TotalOrder();
    FindAbsent(rows[1..], rows[0].key);
  }

  /** Appending past the last key keeps the order. */
  lemma SortedAppend<V>(rows: seq<Row<V>>, row: Row<V>)
    requires Sorted(rows)
    requires |rows| > 0 ==> Less(rows[|rows| - 1].key, row.key)
    ensures Sorted(rows + [row])
  {
    TotalOrder();
  }

  lemma SortedConcat<V>(left: seq<Row<V>>, right: seq<Row<V>>)
    requires Sorted(left) && Sorted(right)
    requires forall i, j :: 0 <= i < |left| && 0 <= j < |right| ==> Less(left[i].key, right[j].key)
    ensures Sorted(left + right)
  {
    var all := left + right;
    forall i, j | 0 <= i < j < |all| ensures Less(all[i].key, all[j].key) {
      if j < |left| {
        assert all[i] == left[i] && all[j] == left[j];
      } else if i < |left| {
        assert all[i] == left[i] && all[j] == right[j - |left|];
      } else {
        assert all[i] == right[i - |left|] && all[j] == right[j - |left|];
      }
    }
  }

  lemma FindAppend<V>(rows: seq<Row<V>>, row: Row<V>, key: string)
    requires Sorted(rows + [row])
    ensures Find(rows + [row], key) == (if key == row.key then Some(row.value) else Find(rows, key))
  {
    FindConcat(rows, [row], key);
    if key == row.key {
      FindAt(rows + [row], |rows|);
    }
  }

  // --- binary search, insertion, replacement, removal ---

  /** The number of leading rows below `key`. */
  function LowerIndex<V>(rows: seq<Row<V>>, key: string): (i: nat)
    ensures i <= |rows|
  {
    if |rows| == 0 || !Less(rows[0].key, key) then 0 else 1 + LowerIndex(rows[1..], key)
  }

  ghost predicate SplitsAt<V>(rows: seq<Row<V>>, key: string, i: nat) {
    && i <= |rows|
    && (forall k :: 0 <= k < i ==> Less(rows[k].key, key))
    && (forall k :: i <= k < |rows| ==> !Less(rows[k].key, key))
  }

  lemma {:induction false} LowerIndexMeaning<V>(rows: seq<Row<V>>, key: string)
    requires Sorted(rows)
    ensures SplitsAt(rows, key, LowerIndex(rows, key))
  {
    TotalOrder();
    if |rows| > 0 && Less(rows[0].key, key) {
      LowerIndexMeaning(rows[1..], key);
      var i := LowerIndex(rows[1..], key);
      forall k | 0 <= k < i + 1 ensures Less(rows[k].key, key) {
        if k > 0 { assert rows[k] == rows[1..][k - 1]; }
      }
      forall k | i + 1 <= k < |rows| ensures !Less(rows[k].key, key) {
        assert rows[k] == rows[1..][k - 1];
      }
    }
  }

  /** Binary search for the first row not below `key`. */
  method Search<V>(rows: seq<Row<V>>, key: string) returns (index: nat)
    requires Sorted(rows)
    ensures index == LowerIndex(rows, key) && SplitsAt(rows, key, index)
  {
    TotalOrder();
    LowerIndexMeaning(rows, key);
    var low, high := 0, |rows|;
    while low < high
      invariant 0 <= low <= LowerIndex(rows, key) <= high <= |rows|
    {
      var middle := (low + high) / 2;
      if Less(rows[middle].key, key) {
        low := middle + 1;
      } else {
        high := middle;
      }
    }
    index := low;
  }

  predicate HitAt<V>(rows: seq<Row<V>>, key: string, index: nat) {
    index < |rows| && rows[index].key == key
  }

  function Put<V>(rows: seq<Row<V>>, key: string, value: V): seq<Row<V>> {
    var index := LowerIndex(rows, key);
    if HitAt(rows, key, index) then rows[index := Row(key, value)]
    else rows[..index] + [Row(key, value)] + rows[index..]
  }

  function Drop<V>(rows: seq<Row<V>>, key: string): seq<Row<V>> {
    var index := LowerIndex(rows, key);
    if HitAt(rows, key, index) then rows[..index] + rows[index + 1..] else rows
  }

  function Change<V>(rows: seq<Row<V>>, key: string, value: Option<V>): seq<Row<V>> {
    match value
    case None => Drop(rows, key)
    case Some(v) => Put(rows, key, v)
  }

  /** A key is found exactly where the search lands. */
  lemma FindByIndex<V>(rows: seq<Row<V>>, key: string)
    requires Sorted(rows)
    ensures var index := LowerIndex(rows, key);
      Find(rows, key) == if HitAt(rows, key, index) then Some(rows[index].value) else None
  {
    TotalOrder();
    LowerIndexMeaning(rows, key);
    var index := LowerIndex(rows, key);
    if HitAt(rows, key, index) {
      FindAt(rows, index);
    } else {
      FindAbsent(rows, key);
      forall k | 0 <= k < |rows| ensures rows[k].key != key {
        if k >= index { assert k > index ==> Less(rows[index].key, rows[k].key); }
      }
    }
  }

  lemma PutSorted<V>(rows: seq<Row<V>>, key: string, value: V)
    requires Sorted(rows)
    ensures Sorted(Put(rows, key, value))
  {
    TotalOrder();
    LowerIndexMeaning(rows, key);
    var index := LowerIndex(rows, key);
    if !HitAt(rows, key, index) {
      var left, right := rows[..index] + [Row(key, value)], rows[index..];
      SortedAppend(rows[..index], Row(key, value));
      assert Sorted(right);
      forall i, j | 0 <= i < |left| && 0 <= j < |right| ensures Less(left[i].key, right[j].key) {
        assert right[j] == rows[index + j];
        assert Less(key, rows[index].key);
        assert AtMost(rows[index].key, right[j].key);
      }
      SortedConcat(left, right);
    }
  }

  lemma DropSorted<V>(rows: seq<Row<V>>, key: string)
    requires Sorted(rows)
    ensures Sorted(Drop(rows, key))
  {
    var index := LowerIndex(rows, key);
    if HitAt(rows, key, index) {
      SortedConcat(rows[..index], rows[index + 1..]);
    }
  }

  /** What follows the slot of `key` once it is written. */
  function AfterSlot<V>(rows: seq<Row<V>>, key: string): seq<Row<V>> {
    var index := LowerIndex(rows, key);
    if HitAt(rows, key, index) then rows[index + 1..] else rows[index..]
  }

  lemma PutShape<V>(rows: seq<Row<V>>, key: string, value: V)
    ensures var left := rows[..LowerIndex(rows, key)];
      && Put(rows, key, value) == left + ([Row(key, value)] + AfterSlot(rows, key))
      && (HitAt(rows, key, |left|) ==> rows == left + ([rows[|left|]] + AfterSlot(rows, key)))
      && (!HitAt(rows, key, |left|) ==> rows == left + AfterSlot(rows, key))
  {
    hide LowerIndex;
    var i := LowerIndex(rows, key);
    assert |rows[..i]| == i;
    if HitAt(rows, key, i) {
      ReplaceShape(rows, i, Row(key, value));
    } else {
      InsertShape(rows, i, Row(key, value));
    }
  }

  lemma ReplaceShape<T>(s: seq<T>, i: nat, x: T)
    requires i < |s|
    ensures s[i := x] == s[..i] + ([x] + s[i + 1..])
    ensures s == s[..i] + ([s[i]] + s[i + 1..])
  {
  }

  lemma InsertShape<T>(s: seq<T>, i: nat, x: T)
    requires i <= |s|
    ensures s[..i] + [x] + s[i..] == s[..i] + ([x] + s[i..])
    ensures s == s[..i] + s[i..]
  {
  }

  lemma PutFind<V>(rows: seq<Row<V>>, key: string, value: V, other: string)
    requires Sorted(rows)
    ensures Find(Put(rows, key, value), other) == if other == key then Some(value) else Find(rows, other)
  {
    LowerIndexMeaning(rows, key);
    PutShape(rows, key, value);
    hide LowerIndex, Less, Find, Sorted, Put, AfterSlot;
    var index := LowerIndex(rows, key);
    var left, rest := rows[..index], AfterSlot(rows, key);
    FindConcat(left, [Row(key, value)] + rest, other);
    FindHead(Row(key, value), rest, other);
    if other == key { BelowAbsent(left, key); }
    if HitAt(rows, key, index) {
      FindConcat(left, [rows[index]] + rest, other);
      FindHead(rows[index], rest, other);
    } else {
      FindConcat(left, rest, other);
    }
  }

  lemma FindHead<V>(row: Row<V>, rest: seq<Row<V>>, key: string)
    ensures Find([row] + rest, key) == if row.key == key then Some(row.value) else Find(rest, key)
  {
    assert ([row] + rest)[1..] == rest;
  }

  lemma BelowAbsent<V>(rows: seq<Row<V>>, key: string)
    requires forall k :: 0 <= k < |rows| ==> Less(rows[k].key, key)
    ensures Find(rows, key) == None
  {
    TotalOrder();
    FindAbsent(rows, key);
  }

  lemma DropFind<V>(rows: seq<Row<V>>, key: string, other: string)
    requires Sorted(rows)
    ensures Find(Drop(rows, key), other) == if other == key then None else Find(rows, other)
  {
    LowerIndexMeaning(rows, key);
    FindByIndex(rows, key);
    var index := LowerIndex(rows, key);
    if HitAt(rows, key, index) {
      var left, rest := rows[..index], rows[index + 1..];
      assert rows == left + ([rows[index]] + rest);
      FindConcat(left, [rows[index]] + rest, other);
      FindConcat(left, rest, other);
      if other == key {
        BelowAbsent(left, key);
        assert rows[index..] == [rows[index]] + rest;
        HeadAbsent(rows[index..]);
      }
    }
  }

  /** One keyed change: the order is kept and only that key's answer moves. */
  lemma ChangeMeaning<V>(rows: seq<Row<V>>, key: string, value: Option<V>)
    requires Sorted(rows)
    ensures Sorted(Change(rows, key, value))
    ensures forall other :: Find(Change(rows, key, value), other) == if other == key then value else Find(rows, other)
  {
    match value {
      case None =>
        DropSorted(rows, key);
        forall other ensures Find(Drop(rows, key), other) == if other == key then None else Find(rows, other) {
          DropFind(rows, key, other);
        }
      case Some(v) =>
        PutSorted(rows, key, v);
        forall other ensures Find(Put(rows, key, v), other) == if other == key then Some(v) else Find(rows, other) {
          PutFind(rows, key, v, other);
        }
    }
  }

  /** The finite map an ordered row sequence stands for. */
  function AsMap<V>(rows: seq<Row<V>>): (m: map<string, V>)
    ensures forall key :: key in m <==> Find(rows, key).Some?
    ensures forall key :: key in m ==> Find(rows, key) == Some(m[key])
  {
    if |rows| == 0 then map[] else AsMap(rows[1..])[rows[0].key := rows[0].value]
  }

  // --- sorting rows by key ---

  ghost predicate DistinctKeys<V>(rows: seq<Row<V>>) {
    forall i, j :: 0 <= i < j < |rows| ==> rows[i].key != rows[j].key
  }

  lemma {:induction false} FindDistinct<V>(rows: seq<Row<V>>, i: nat)
    requires DistinctKeys(rows) && i < |rows|
    ensures Find(rows, rows[i].key) == Some(rows[i].value)
  {
    if i > 0 { FindDistinct(rows[1..], i - 1); }
  }

  /** The library sort by key, on rows with distinct keys. */
  function SortRows<V>(rows: seq<Row<V>>): seq<Row<V>> {
    if rows == [] then [] else Put(SortRows(rows[1..]), rows[0].key, rows[0].value)
  }

  lemma {:induction false} SortRowsMeaning<V>(rows: seq<Row<V>>)
    ensures Sorted(SortRows(rows))
    ensures forall key :: Find(SortRows(rows), key) == Find(rows, key)
  {
    hide Put, Sorted;
    if rows == [] {
      EmptySorted<V>();
    } else {
      SortRowsMeaning(rows[1..]);
      var rest, first := SortRows(rows[1..]), rows[0];
      PutSorted(rest, first.key, first.value);
      forall key ensures Find(SortRows(rows), key) == Find(rows, key) { PutFind(rest, first.key, first.value, key); }
    }
  }

  lemma EmptySorted<V>()
    ensures Sorted<V>([])
  {
  }

  lemma {:induction false} SortRowsPermutes<V>(rows: seq<Row<V>>)
    requires DistinctKeys(rows)
    ensures multiset(SortRows(rows)) == multiset(rows) && |SortRows(rows)| == |rows|
  {
    hide *;
    if rows == [] {
      SortNothing(rows);
    } else {
      var rest, first := SortRows(rows[1..]), rows[0];
      DistinctTail(rows);
      SortRowsPermutes(rows[1..]);
      SortRowsMeaning(rows[1..]);
      FindAbsent(rows[1..], first.key);
      FindByIndex(rest, first.key);
      InsertPermutes(rest, first);
      SortStep(rows);
      assert rows == [first] + rows[1..];
    }
  }

  lemma SortNothing<V>(rows: seq<Row<V>>)
    requires rows == []
    ensures SortRows(rows) == rows
  {
  }

  lemma SortStep<V>(rows: seq<Row<V>>)
    requires rows != []
    ensures SortRows(rows) == Put(SortRows(rows[1..]), rows[0].key, rows[0].value)
  {
    hide Put;
  }

  lemma DistinctTail<V>(rows: seq<Row<V>>)
    requires DistinctKeys(rows) && rows != []
    ensures DistinctKeys(rows[1..]) && !HasKey(rows[1..], rows[0].key)
  {
  }

  lemma InsertPermutes<V>(rest: seq<Row<V>>, row: Row<V>)
    requires !HitAt(rest, row.key, LowerIndex(rest, row.key))
    ensures multiset(Put(rest, row.key, row.value)) == multiset(rest) + multiset{row}
    ensures |Put(rest, row.key, row.value)| == |rest| + 1
  {
    hide LowerIndex, HitAt;
    var at := LowerIndex(rest, row.key);
    assert rest == rest[..at] + rest[at..];
  }

  /** Ordered rows that answer every key as `rows` does are its sort. */
  lemma SortUnique<V>(ordered: seq<Row<V>>, rows: seq<Row<V>>)
    requires Sorted(ordered) && (forall key :: Find(ordered, key) == Find(rows, key))
    ensures ordered == SortRows(rows)
  {
    hide Find, Sorted;
    SortRowsMeaning(rows);
    FindExtensional(ordered, SortRows(rows));
  }
}
