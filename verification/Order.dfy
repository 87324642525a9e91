/** Canonical order of paths and symbol IDs.

The producer compares strings byte by byte and the client compares `str` values
the same way; on valid text both are the lexicographic order of the characters. */
module Order {

  predicate Less(a: string, b: string) {
    if |b| == 0 then false
    else if |a| == 0 then true
    else a[0] < b[0] || (a[0] == b[0] && Less(a[1..], b[1..]))
  }

  predicate AtMost(a: string, b: string) {
    a == b || Less(a, b)
  }

  lemma {:induction false} LessIrreflexive(a: string)
    ensures !Less(a, a)
  {
    if |a| > 0 { LessIrreflexive(a[1..]); }
  }

  lemma {:induction false} LessTransitive(a: string, b: string, c: string)
    requires Less(a, b) && Less(b, c)
    ensures Less(a, c)
  {
    if |a| > 0 && a[0] == b[0] && b[0] == c[0] {
      LessTransitive(a[1..], b[1..], c[1..]);
    }
  }

  lemma {:induction false} LessTrichotomy(a: string, b: string)
    ensures Less(a, b) || a == b || Less(b, a)
  {
    if |a| > 0 && |b| > 0 && a[0] == b[0] {
      LessTrichotomy(a[1..], b[1..]);
      assert a == [a[0]] + a[1..] && b == [b[0]] + b[1..];
    }
  }

  /** `Less` is a strict total order. */
  lemma TotalOrder()
    ensures forall a: string :: !Less(a, a)
    ensures forall a: string, b: string, c: string :: Less(a, b) && Less(b, c) ==> Less(a, c)
    ensures forall a: string, b: string :: Less(a, b) || a == b || Less(b, a)
  {
    forall a: string ensures !Less(a, a) { LessIrreflexive(a); }
    forall a: string, b: string, c: string | Less(a, b) && Less(b, c) ensures Less(a, c) { LessTransitive(a, b, c); }
    forall a: string, b: string ensures Less(a, b) || a == b || Less(b, a) { LessTrichotomy(a, b); }
  }

  ghost predicate Ordered(keys: seq<string>) {
    forall i, j :: 0 <= i < j < |keys| ==> AtMost(keys[i], keys[j])
  }

  ghost predicate StrictlyOrdered(keys: seq<string>) {
    forall i, j :: 0 <= i < j < |keys| ==> Less(keys[i], keys[j])
  }

  function SetOf<T>(xs: seq<T>): set<T> {
    set x | x in xs
  }

  function InsertOrdered(key: string, keys: seq<string>): seq<string> {
    if |keys| == 0 then [key]
    else if Less(keys[0], key) then [keys[0]] + InsertOrdered(key, keys[1..])
    else [key] + keys
  }

  /** The library's string sort. */
  function SortStrings(keys: seq<string>): seq<string> {
    if |keys| == 0 then [] else InsertOrdered(keys[0], SortStrings(keys[1..]))
  }

  /** A head no later than any member of an ordered run. */
  lemma PrependOrdered(first: string, rest: seq<string>)
    requires Ordered(rest) && forall x :: x in multiset(rest) ==> AtMost(first, x)
    ensures Ordered([first] + rest)
  {
    hide Less, AtMost;
    forall i | 0 <= i < |rest| ensures AtMost(first, rest[i]) {
      assert rest[i] in multiset(rest);
    }
  }

  lemma SplitFirst(keys: seq<string>)
    requires |keys| > 0
    ensures multiset(keys) == multiset{keys[0]} + multiset(keys[1..])
    ensures Ordered(keys) ==> Ordered(keys[1..]) && forall x :: x in multiset(keys) ==> AtMost(keys[0], x)
  {
    hide Less;
    assert keys == [keys[0]] + keys[1..];
    if Ordered(keys) {
      forall x | x in multiset(keys) ensures AtMost(keys[0], x) {
        var i :| 0 <= i < |keys| && keys[i] == x;
      }
    }
  }

  lemma {:induction false} InsertOrderedMeaning(key: string, keys: seq<string>)
    requires Ordered(keys)
    ensures Ordered(InsertOrdered(key, keys))
    ensures multiset(InsertOrdered(key, keys)) == multiset{key} + multiset(keys)
  {
    hide Less, Ordered;
    TotalOrder();
    if |keys| > 0 {
      SplitFirst(keys);
      if Less(keys[0], key) {
        InsertOrderedMeaning(key, keys[1..]);
        PrependOrdered(keys[0], InsertOrdered(key, keys[1..]));
      } else {
        PrependOrdered(key, keys);
      }
    } else {
      PrependOrdered(key, keys);
      assert [key] + keys == [key];
    }
  }

  /** Sorting yields the ordered permutation. */
  lemma {:induction false} SortStringsMeaning(keys: seq<string>)
    ensures Ordered(SortStrings(keys))
    ensures multiset(SortStrings(keys)) == multiset(keys)
    ensures SetOf(SortStrings(keys)) == SetOf(keys)
  {
    if |keys| > 0 {
      SortStringsMeaning(keys[1..]);
      hide Less, Ordered, InsertOrdered;
      InsertOrderedMeaning(keys[0], SortStrings(keys[1..]));
      SplitFirst(keys);
    }
    SameMembers(SortStrings(keys), keys);
  }

  lemma SameMembers(a: seq<string>, b: seq<string>)
    requires multiset(a) == multiset(b)
    ensures SetOf(a) == SetOf(b)
  {
    forall x ensures x in a <==> x in b {
      assert x in a <==> x in multiset(a);
    }
  }

  /** Adjacent duplicates dropped: the write cursor's view of an ordered run. */
  function Dedup(keys: seq<string>): seq<string> {
    if |keys| == 0 then []
    else
      var kept := Dedup(keys[..|keys| - 1]);
      var last := keys[|keys| - 1];
      if |kept| > 0 && kept[|kept| - 1] == last then kept else kept + [last]
  }

  /** On an ordered run, dropping adjacent duplicates leaves the strictly ordered
  sequence of the same keys. */
  lemma {:induction false} DedupMeaning(keys: seq<string>)
    requires Ordered(keys)
    ensures StrictlyOrdered(Dedup(keys))
    ensures SetOf(Dedup(keys)) == SetOf(keys)
    ensures |keys| > 0 ==> |Dedup(keys)| > 0 && Dedup(keys)[|Dedup(keys)| - 1] == keys[|keys| - 1]
  {
    if |keys| > 0 {
      TotalOrder();
      var front := keys[..|keys| - 1];
      var last := keys[|keys| - 1];
      DedupMeaning(front);
      assert keys == front + [last];
      var kept := Dedup(front);
      forall x ensures x in Dedup(keys) <==> x in keys {
        assert x in SetOf(kept) <==> x in SetOf(front);
        assert x in keys <==> x in front || x == last;
      }
      forall i | 0 <= i < |kept| ensures AtMost(kept[i], last) {
        assert kept[i] in SetOf(kept);
        var j :| 0 <= j < |front| && front[j] == kept[i];
        assert AtMost(keys[j], keys[|keys| - 1]);
      }
    }
  }

  lemma DedupNone()
    ensures Dedup([]) == []
  {
  }

  lemma DedupNext(all: seq<string>, index: nat)
    requires index < |all|
    ensures var kept := Dedup(all[..index]);
      Dedup(all[..index + 1])
      == if |kept| > 0 && kept[|kept| - 1] == all[index] then kept else kept + [all[index]]
  {
    assert all[..index + 1][..index] == all[..index];
  }

  /** In-place compaction of an ordered run: the first `write` slots hold it without repeats. */
  method CompactInPlace(keys: array<string>) returns (write: nat)
    modifies keys
    ensures write <= keys.Length
    ensures keys[..write] == Dedup(old(keys[..]))
  {
    hide Dedup;
    write := 0;
    ghost var all := keys[..];
    assert all[..0] == [] && Dedup([]) == [] by { DedupNone(); }
    for index := 0 to keys.Length
      invariant write <= index
      invariant keys[..write] == Dedup(all[..index])
      invariant keys[index..] == all[index..]
    {
      DedupNext(all, index);
      assert keys[index] == keys[index..][0] == all[index];
      var path := keys[index];
      if write == 0 || keys[write - 1] != path {
        keys[write] := path;
        write := write + 1;
      }
    }
    assert all[..keys.Length] == all;
  }

  /** The members of a set, sorted: how both programs walk a hash map in canonical order. */
  method SortedKeys(keys: set<string>) returns (ordered: seq<string>)
    ensures StrictlyOrdered(ordered) && SetOf(ordered) == keys
    ensures forall key :: key in ordered <==> key in keys
  {
    hide Less, SortStrings, Dedup;
    var listed: seq<string> := [];
    var remaining := keys;
    while remaining != {}
      invariant remaining <= keys && forall key :: key in listed <==> key in keys && key !in remaining
      decreases |remaining|
    {
      var key :| key in remaining;
      remaining := remaining - {key};
      listed := listed + [key];
    }
    SortStringsMeaning(listed);
    DedupMeaning(SortStrings(listed));
    ordered := Dedup(SortStrings(listed));
    assert SetOf(listed) == keys;
    forall key ensures key in ordered <==> key in keys {
      assert key in ordered <==> key in SetOf(ordered);
    }
  }

  // --- sizes ---

  lemma {:induction false} SubsetCount<T>(a: set<T>, b: set<T>)
    requires a <= b
    ensures |a| <= |b|
    decreases |a|
  {
    if a != {} {
      var x :| x in a;
      SubsetCount(a - {x}, b - {x});
    }
  }

  predicate Distinct<T(==)>(list: seq<T>) {
    forall i, j :: 0 <= i < j < |list| ==> list[i] != list[j]
  }

  lemma {:induction false} DistinctSize<T>(list: seq<T>)
    requires Distinct(list)
    ensures |SetOf(list)| == |list|
  {
    if |list| > 0 {
      DistinctSize(list[1..]);
      assert SetOf(list) == {list[0]} + SetOf(list[1..]);
    }
  }
}
