/** The session's retained demand runs and the undo log that makes a change to them
transactional (internal/typefacts/session_demands.go). */
module DemandStores {
  import opened SortedRows
  import opened Order
  import opened Facts
  import opened Contributions
  import opened Oracles

  type DemandGroup = Row<Run>

  datatype Undo = Replaced(index: nat, previous: DemandGroup) | Inserted(index: nat) | Removed(index: nat, previous: DemandGroup)

  // --- grouping a flat change list by path ---

  /** The demands of one path, in list order. */
  function RunAt(clean: string -> string, changes: seq<EntityDemand>, path: Path): Run {
    if changes == [] then []
    else (if clean(changes[0].location.path) == path then [changes[0]] else []) + RunAt(clean, changes[1..], path)
  }

  lemma {:induction false} RunAtConcat(clean: string -> string, a: seq<EntityDemand>, b: seq<EntityDemand>, path: Path)
    ensures RunAt(clean, a + b, path) == RunAt(clean, a, path) + RunAt(clean, b, path)
  {
    if a == [] {
      assert a + b == b;
    } else {
      assert (a + b)[1..] == a[1..] + b;
      RunAtConcat(clean, a[1..], b, path);
      var head := if clean(a[0].location.path) == path then [a[0]] else [];
      assert RunAt(clean, a + b, path) == head + RunAt(clean, a[1..] + b, path);
      assert head + (RunAt(clean, a[1..], path) + RunAt(clean, b, path)) == head + RunAt(clean, a[1..], path) + RunAt(clean, b, path);
    }
  }

  /** Appending a run of a larger path extends the grouping. */
  lemma GroupedAppend(
    clean: string -> string, before: seq<EntityDemand>, run: seq<EntityDemand>, groups: seq<DemandGroup>, path: Path)
    requires Grouped(clean, before, groups) && run != []
    requires forall i :: 0 <= i < |run| ==> clean(run[i].location.path) == path
    requires |groups| != 0 ==> Less(groups[|groups| - 1].key, path)
    ensures Grouped(clean, before + run, groups + [Row(path, run)])
  {
    TotalOrder();
    SortedAppend(groups, Row(path, run));
    BelowAbsent(groups, path);
    forall other ensures Find(groups + [Row(path, run)], other)
      == (if RunAt(clean, before + run, other) == [] then None else Some(RunAt(clean, before + run, other)))
    {
      RunAtConcat(clean, before, run, other);
      RunAtUniform(clean, run, path, other);
      FindAppend(groups, Row(path, run), other);
      var earlier := RunAt(clean, before, other);
      if other == path {
        assert Find(groups, path) == None;
        assert earlier == [];
        assert earlier + run == run;
      } else {
        assert earlier + [] == earlier;
      }
    }
  }

  lemma {:induction false} RunAtUniform(clean: string -> string, run: seq<EntityDemand>, path: Path, other: Path)
    requires forall i :: 0 <= i < |run| ==> clean(run[i].location.path) == path
    ensures RunAt(clean, run, other) == if other == path then run else []
  {
    if run != [] { RunAtUniform(clean, run[1..], path, other); }
  }

  /** The groups list every path of the changes once, in order, with exactly its demands. */
  ghost predicate Grouped(clean: string -> string, changes: seq<EntityDemand>, groups: seq<DemandGroup>) {
    && Sorted(groups)
    && forall path :: Find(groups, path) == (if RunAt(clean, changes, path) == [] then None else Some(RunAt(clean, changes, path)))
  }

  /** Borrows contiguous runs while their paths strictly increase; otherwise groups by a
  map and sorts the paths. */
  method ChangedRuns(clean: string -> string, changes: seq<EntityDemand>) returns (groups: seq<DemandGroup>)
    ensures Grouped(clean, changes, groups)
  {
    TotalOrder();
    groups := [];
    var start := 0;
    while start < |changes|
      invariant 0 <= start <= |changes|
      invariant Grouped(clean, changes[..start], groups)
    {
      var path := clean(changes[start].location.path);
      var end := start + 1;
      while end < |changes| && clean(changes[end].location.path) == path
        invariant start < end <= |changes|
        invariant forall i :: start <= i < end ==> clean(changes[i].location.path) == path
      {
        end := end + 1;
      }
      if |groups| != 0 && !Less(groups[|groups| - 1].key, path) {
        groups := GroupByMap(clean, changes);
        return;
      }
      var run := changes[start..end];
      assert changes[..end] == changes[..start] + run;
      GroupedAppend(clean, changes[..start], run, groups, path);
      groups := groups + [Row(path, run)];
      start := end;
    }
    assert changes[..|changes|] == changes;
  }

  method GroupByMap(clean: string -> string, changes: seq<EntityDemand>) returns (groups: seq<DemandGroup>)
    ensures Grouped(clean, changes, groups)
  {
    var grouped: map<Path, Run> := map[];
    for index := 0 to |changes|
      invariant forall path :: (path in grouped <==> RunAt(clean, changes[..index], path) != [])
                               && (path in grouped ==> grouped[path] == RunAt(clean, changes[..index], path))
    {
      var path := clean(changes[index].location.path);
      assert changes[..index + 1] == changes[..index] + [changes[index]];
      forall other ensures RunAt(clean, changes[..index + 1], other)
        == RunAt(clean, changes[..index], other) + (if other == path then [changes[index]] else [])
      {
        RunAtConcat(clean, changes[..index], [changes[index]], other);
        RunAtUniform(clean, [changes[index]], path, other);
      }
      grouped := grouped[path := (if path in grouped then grouped[path] else []) + [changes[index]]];
    }
    assert changes[..|changes|] == changes;
    groups := SortedGroups(grouped);
  }

  /** The rows of a map, in key order. */
  method SortedGroups(grouped: map<Path, Run>) returns (groups: seq<DemandGroup>)
    ensures Sorted(groups)
    ensures forall path :: Find(groups, path) == if path in grouped then Some(grouped[path]) else None
  {
    groups := [];
    var remaining := grouped.Keys;
    while remaining != {}
      invariant remaining <= grouped.Keys && Sorted(groups)
      invariant forall path :: Find(groups, path) == (if path in grouped && path !in remaining then Some(grouped[path]) else None)
    {
      var path :| path in remaining;
      ChangeMeaning(groups, path, Some(grouped[path]));
      groups := Put(groups, path, grouped[path]);
      remaining := remaining - {path};
    }
  }

  // --- the transaction ---

  /** What undoing one logged step does to the groups. */
  ghost predicate Undoable(groups: seq<DemandGroup>, undo: Undo) {
    match undo
    case Replaced(index, _) => index < |groups|
    case Inserted(index) => index < |groups|
    case Removed(index, _) => index <= |groups|
  }

  ghost function Undone(groups: seq<DemandGroup>, undo: Undo): seq<DemandGroup>
    requires Undoable(groups, undo)
  {
    match undo
    case Replaced(index, previous) => groups[index := previous]
    case Inserted(index) => groups[..index] + groups[index + 1..]
    case Removed(index, previous) => groups[..index] + [previous] + groups[index..]
  }

  lemma UndoInsert(groups: seq<DemandGroup>, index: nat, group: DemandGroup)
    requires index <= |groups|
    ensures Undone(groups[..index] + [group] + groups[index..], Inserted(index)) == groups
  {
    var next := groups[..index] + [group] + groups[index..];
    assert next[..index] == groups[..index] && next[index + 1..] == groups[index..];
  }

  lemma UndoRemove(groups: seq<DemandGroup>, index: nat)
    requires index < |groups|
    ensures Undone(groups[..index] + groups[index + 1..], Removed(index, groups[index])) == groups
  {
    var next := groups[..index] + groups[index + 1..];
    assert next[..index] == groups[..index] && next[index..] == groups[index + 1..];
  }

  /** The log, walked backwards from `groups`, ends at `base`. */
  ghost predicate LeadsBack(groups: seq<DemandGroup>, log: seq<Undo>, base: seq<DemandGroup>)
    decreases |log|
  {
    if log == [] then groups == base
    else
      var last := log[|log| - 1];
      Undoable(groups, last) && LeadsBack(Undone(groups, last), log[..|log| - 1], base)
  }

  /** Removals override replacements; everything else keeps its base run. */
  function Overridden(base: Option<Run>, change: Option<Run>, removed: bool): Option<Run> {
    if removed then None else if change.Some? then change else base
  }

  class RetainedDemandStore {
    var groups: seq<DemandGroup>

    constructor ()
      ensures groups == []
    {
      groups := [];
    }
  }

  class Transaction {
    const store: RetainedDemandStore
    const changedPaths: seq<Path>
    const reset: bool
    const resetOld: seq<DemandGroup>
    var undo: seq<Undo>
    var finished: bool
    ghost const base: seq<DemandGroup>

    /** The undo log leads from the store's groups back to those the transaction found. */
    ghost predicate Active()
      reads this, store
    {
      && !finished
      && Sorted(store.groups)
      && (if reset then resetOld == base else LeadsBack(store.groups, undo, base))
    }

    /** `begin` after its runs are canonical: replaces every changed run, then removes. */
    constructor (
      clean: string -> string, store: RetainedDemandStore, changedRuns: seq<DemandGroup>, removed: seq<Path>, reset: bool)
      requires Sorted(store.groups) && Sorted(changedRuns)
      modifies store
      ensures this.store == store && this.reset == reset && Active() && base == old(store.groups)
      ensures StrictlyOrdered(changedPaths)
      ensures forall path :: path in changedPaths <==> (Find(changedRuns, path).Some? || path in Cleaned(clean, removed))
      ensures forall path :: Find(store.groups, path) == Overridden(
        if reset then None else Find(old(store.groups), path), Find(changedRuns, path), path in Cleaned(clean, removed))
    {
      this.store, this.reset, this.resetOld, this.base := store, reset, store.groups, store.groups;
      var named := seq(|changedRuns|, i requires 0 <= i < |changedRuns| => changedRuns[i].key) + Cleaned(clean, removed);
      this.changedPaths := Dedup(SortStrings(named));
      undo, finished := [], false;
      new;
      NamedPathsMeaning(clean, changedRuns, removed, named);
      if reset { store.groups := []; }
      ReplaceAll(changedRuns);
      RemoveAll(clean, removed);
    }

    method ReplaceAll(changedRuns: seq<DemandGroup>)
      requires Active() && Sorted(changedRuns)
      modifies this, store
      ensures Active()
      ensures forall path :: Find(store.groups, path) == Overridden(Find(old(store.groups), path), Find(changedRuns, path), false)
    {
      FindEmpty<Run>();
      hide Find, LeadsBack;
      for index := 0 to |changedRuns|
        invariant Active()
        invariant forall path ::
          Find(store.groups, path) == Overridden(Find(old(store.groups), path), Find(changedRuns[..index], path), false)
      {
        assert changedRuns[..index + 1] == changedRuns[..index] + [changedRuns[index]];
        assert Sorted(changedRuns[..index + 1]);
        forall path ensures Find(changedRuns[..index + 1], path)
          == if path == changedRuns[index].key then Some(changedRuns[index].value) else Find(changedRuns[..index], path)
        {
          FindAppend(changedRuns[..index], changedRuns[index], path);
        }
        Replace(changedRuns[index]);
      }
      assert changedRuns[..|changedRuns|] == changedRuns;
    }

    method RemoveAll(clean: string -> string, removed: seq<Path>)
      requires Active()
      modifies this, store
      ensures Active()
      ensures forall path ::
        Find(store.groups, path) == Overridden(Find(old(store.groups), path), None, path in Cleaned(clean, removed))
    {
      hide Find, LeadsBack;
      for index := 0 to |removed|
        invariant Active()
        invariant forall path ::
          Find(store.groups, path) == Overridden(Find(old(store.groups), path), None, path in Cleaned(clean, removed[..index]))
      {
        assert Cleaned(clean, removed[..index + 1]) == Cleaned(clean, removed[..index]) + [clean(removed[index])];
        Remove(clean(removed[index]));
      }
      assert removed[..|removed|] == removed;
    }

    method Replace(group: DemandGroup)
      requires Active()
      modifies this, store
      ensures Active() && store.groups == Put(old(store.groups), group.key, group.value)
      ensures forall path :: Find(store.groups, path) == if path == group.key then Some(group.value) else Find(old(store.groups), path)
    {
      hide Find, LeadsBack;
      var groups := store.groups;
      var index := Search(groups, group.key);
      if index < |groups| && groups[index].key == group.key {
        Log(Replaced(index, groups[index]), groups[index := group]);
      } else {
        UndoInsert(groups, index, group);
        Log(Inserted(index), groups[..index] + [group] + groups[index..]);
      }
      assert group == Row(group.key, group.value);
      ChangeMeaning(groups, group.key, Some(group.value));
    }

    method Remove(path: Path)
      requires Active()
      modifies this, store
      ensures Active() && store.groups == Drop(old(store.groups), path)
      ensures forall other :: Find(store.groups, other) == if other == path then None else Find(old(store.groups), other)
    {
      hide Find, LeadsBack;
      var groups := store.groups;
      ChangeMeaning(groups, path, None);
      var index := Search(groups, path);
      if index == |groups| || groups[index].key != path { return; }
      UndoRemove(groups, index);
      Log(Removed(index, groups[index]), groups[..index] + groups[index + 1..]);
    }

    /** One logged edit of the groups. */
    method Log(entry: Undo, next: seq<DemandGroup>)
      requires !finished && (if reset then resetOld == base else LeadsBack(store.groups, undo, base))
      requires Undoable(next, entry) && Undone(next, entry) == store.groups
      modifies this, store
      ensures !finished && (if reset then resetOld == base else LeadsBack(store.groups, undo, base))
      ensures store.groups == next
    {
      undo := undo + [entry];
      store.groups := next;
      assert undo[..|undo| - 1] == old(undo);
    }

    method Commit()
      modifies this
      ensures finished && store.groups == old(store.groups)
    {
      finished := true;
    }

    /** Rollback restores the exact groups the transaction found. */
    method Rollback()
      requires finished || Active()
      modifies this, store
      ensures finished
      ensures store.groups == if old(finished) then old(store.groups) else base
    {
      if finished { return; }
      if reset {
        store.groups := resetOld;
        finished := true;
        return;
      }
      var index := |undo|;
      assert undo[..index] == undo;
      while index > 0
        invariant 0 <= index <= |undo| && undo == old(undo)
        invariant LeadsBack(store.groups, undo[..index], base)
      {
        index := index - 1;
        var groups := store.groups;
        assert Undoable(groups, undo[index]) && LeadsBack(Undone(groups, undo[index]), undo[..index], base) by {
          assert undo[..index + 1][..index] == undo[..index];
        }
        match undo[index] {
          case Replaced(at, previous) => store.groups := groups[at := previous];
          case Inserted(at) => store.groups := groups[..at] + groups[at + 1..];
          case Removed(at, previous) => store.groups := groups[..at] + [previous] + groups[at..];
        }
        assert store.groups == Undone(groups, undo[index]);
      }
      finished := true;
    }
  }

  function Cleaned(clean: string -> string, paths: seq<Path>): seq<Path> {
    seq(|paths|, i requires 0 <= i < |paths| => clean(paths[i]))
  }

  lemma NamedPathsMeaning(clean: string -> string, changedRuns: seq<DemandGroup>, removed: seq<Path>, named: seq<Path>)
    requires Sorted(changedRuns)
    requires named == seq(|changedRuns|, i requires 0 <= i < |changedRuns| => changedRuns[i].key) + Cleaned(clean, removed)
    ensures StrictlyOrdered(Dedup(SortStrings(named)))
    ensures forall path :: path in Dedup(SortStrings(named)) <==> (Find(changedRuns, path).Some? || path in Cleaned(clean, removed))
  {
    hide Sorted, Less, SortStrings, Dedup, Find;
    SortStringsMeaning(named);
    DedupMeaning(SortStrings(named));
    var keys := seq(|changedRuns|, i requires 0 <= i < |changedRuns| => changedRuns[i].key);
    forall path
      ensures path in Dedup(SortStrings(named)) <==> (Find(changedRuns, path).Some? || path in Cleaned(clean, removed))
    {
      assert path in SetOf(Dedup(SortStrings(named))) <==> path in SetOf(named);
      FindAbsent(changedRuns, path);
      if HasKey(changedRuns, path) {
        var i :| 0 <= i < |changedRuns| && changedRuns[i].key == path;
        assert keys[i] == path;
        assert named[i] == path;
      }
    }
  }
}
