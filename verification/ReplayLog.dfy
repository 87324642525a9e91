/** What the client keeps to rebuild a crashed producer (crates/typefacts/src/session.rs:536-540,
898-940; internal/typefacts/tsgo/project.go:395-426): one batch an accepted update, with the
overlays that later batches made redundant left out. */
module ReplayLogs {
  import opened SortedRows
  import opened Facts

  datatype Change = Change(path: Path, overlay: Overlay)

  datatype Overlay = Overlay(version: nat, source: string, deleted: bool)

  type Batch = seq<Change>

  // --- the producer's side ---

  /** A change no newer than its path's overlay is skipped. */
  function Accept(overlays: map<Path, Overlay>, change: Change): map<Path, Overlay> {
    if change.path in overlays && change.overlay.version <= overlays[change.path].version then overlays
    else overlays[change.path := change.overlay]
  }

  function AcceptAll(overlays: map<Path, Overlay>, changes: Batch): map<Path, Overlay> {
    if changes == [] then overlays
    else Accept(AcceptAll(overlays, changes[..|changes| - 1]), changes[|changes| - 1])
  }

  /** Every accepted update advances one generation, changes or not. */
  datatype Producer = Producer(generation: nat, overlays: map<Path, Overlay>)

  const Opened := Producer(1, map[])

  function Updated(producer: Producer, changes: Batch): Producer {
    Producer(producer.generation + 1, AcceptAll(producer.overlays, changes))
  }

  function Run(producer: Producer, batches: seq<Batch>): Producer {
    if batches == [] then producer else Updated(Run(producer, batches[..|batches| - 1]), batches[|batches| - 1])
  }

  // --- one path at a time ---

  function OverlayAt(overlays: map<Path, Overlay>, path: Path): Option<Overlay> {
    if path in overlays then Some(overlays[path]) else None
  }

  function AcceptOne(current: Option<Overlay>, overlay: Overlay): Option<Overlay> {
    if current.Some? && overlay.version <= current.value.version then current else Some(overlay)
  }

  function Fold(current: Option<Overlay>, changes: Batch, path: Path): Option<Overlay> {
    if changes == [] then current
    else
      var before, last := Fold(current, changes[..|changes| - 1], path), changes[|changes| - 1];
      if last.path == path then AcceptOne(before, last.overlay) else before
  }

  function FoldBatches(batches: seq<Batch>, path: Path): Option<Overlay> {
    if batches == [] then None else Fold(FoldBatches(batches[..|batches| - 1], path), batches[|batches| - 1], path)
  }

  lemma {:induction false} AcceptedAt(overlays: map<Path, Overlay>, changes: Batch, path: Path)
    ensures OverlayAt(AcceptAll(overlays, changes), path) == Fold(OverlayAt(overlays, path), changes, path)
  {
    if changes != [] { AcceptedAt(overlays, changes[..|changes| - 1], path); }
  }

  lemma {:induction false} RunAt(batches: seq<Batch>, path: Path)
    ensures Run(Opened, batches).generation == 1 + |batches|
    ensures OverlayAt(Run(Opened, batches).overlays, path) == FoldBatches(batches, path)
  {
    if batches != [] {
      var front := batches[..|batches| - 1];
      RunAt(front, path);
      AcceptedAt(Run(Opened, front).overlays, batches[|batches| - 1], path);
    }
  }

  lemma SameOverlays(a: map<Path, Overlay>, b: map<Path, Overlay>)
    requires forall path :: OverlayAt(a, path) == OverlayAt(b, path)
    ensures a == b
  {
    forall path ensures path in a <==> path in b && (path in a ==> a[path] == b[path]) {
      assert OverlayAt(a, path) == OverlayAt(b, path);
    }
  }

  // --- the client's side ---

  predicate Names(changes: Batch, path: Path) {
    exists i :: 0 <= i < |changes| && changes[i].path == path
  }

  /** `retain(|kept| kept.path != path)`. */
  function Without(changes: Batch, path: Path): Batch {
    if changes == [] then []
    else
      var front, last := Without(changes[..|changes| - 1], path), changes[|changes| - 1];
      if last.path == path then front else front + [last]
  }

  lemma {:induction false} WithoutMeaning(changes: Batch, path: Path, other: Path)
    ensures Names(Without(changes, path), other) <==> Names(changes, other) && other != path
    ensures other != path ==> CountPath(Without(changes, path), other) == CountPath(changes, other)
    ensures forall current :: Fold(current, Without(changes, path), other) == if other == path then current else Fold(current, changes, other)
  {
    if changes != [] {
      var front, last := changes[..|changes| - 1], changes[|changes| - 1];
      WithoutMeaning(front, path, other);
      NamesAppended(front, last, other);
      assert front + [last] == changes;
      NamesAppended(Without(front, path), last, other);
      FoldAppended(Without(front, path), last, other);
      CountAppended(Without(front, path), last, other);
    }
  }

  lemma NamesAppended(front: Batch, last: Change, path: Path)
    ensures Names(front + [last], path) <==> Names(front, path) || last.path == path
  {
    var all := front + [last];
    if Names(front, path) {
      var i :| 0 <= i < |front| && front[i].path == path;
      assert all[i].path == path;
    }
    if last.path == path { assert all[|front|].path == path; }
  }

  lemma CountAppended(front: Batch, last: Change, path: Path)
    ensures CountPath(front + [last], path) == CountPath(front, path) + (if last.path == path then 1 else 0)
  {
    assert (front + [last])[..|front|] == front;
  }

  lemma FoldAppended(front: Batch, last: Change, path: Path)
    ensures forall current :: (
      Fold(current, front + [last], path)
      == if last.path == path then AcceptOne(Fold(current, front, path), last.overlay) else Fold(current, front, path))
  {
    assert (front + [last])[..|front|] == front;
  }

  lemma {:induction false} FoldUnnamed(current: Option<Overlay>, changes: Batch, path: Path)
    requires !Names(changes, path)
    ensures Fold(current, changes, path) == current
  {
    if changes != [] {
      var front, last := changes[..|changes| - 1], changes[|changes| - 1];
      assert front + [last] == changes;
      NamesAppended(front, last, path);
      FoldUnnamed(current, front, path);
    }
  }

  /** The batch whose overlay of a path is the newest. */
  ghost predicate NewestAt(history: seq<Batch>, path: Path, k: nat) {
    k < |history| && Names(history[k], path) && forall j :: k < j < |history| ==> !Names(history[j], path)
  }

  /** A path's overlays stay only in its newest batch, where all of them stay. */
  ghost predicate LogFormed(history: seq<Batch>, batches: seq<Batch>, index: map<Path, nat>) {
    && |batches| == |history|
    && (forall path :: path in index ==> NewestAt(history, path, index[path]))
    && (forall path, k :: 0 <= k < |history| && Names(history[k], path) ==> path in index)
    && (forall path, k :: 0 <= k < |batches| ==> KeepsNewest(history, batches, index, path, k))
  }

  ghost predicate KeepsNewest(history: seq<Batch>, batches: seq<Batch>, index: map<Path, nat>, path: Path, k: nat)
    requires k < |batches| == |history|
  {
    if path in index && index[path] == k then
      && Names(batches[k], path) && CountPath(batches[k], path) == CountPath(history[k], path)
      && forall current :: Fold(current, batches[k], path) == Fold(current, history[k], path)
    else !Names(batches[k], path)
  }

  lemma LogStart()
    ensures LogFormed([], [], map[])
  {
  }

  // --- replay against history ---

  lemma {:induction false} FoldTail(batches: seq<Batch>, k: nat, path: Path)
    requires k <= |batches| && forall j :: k <= j < |batches| ==> !Names(batches[j], path)
    ensures FoldBatches(batches, path) == FoldBatches(batches[..k], path)
    decreases |batches|
  {
    if k < |batches| {
      var front := batches[..|batches| - 1];
      FoldUnnamed(FoldBatches(front, path), batches[|batches| - 1], path);
      FoldTail(front, k, path);
      assert front[..k] == batches[..k];
    } else {
      assert batches[..k] == batches;
    }
  }

  /** Starting over, a batch reaches its own peak; starting from an overlay, the higher of the two. */
  lemma {:induction false} FoldPeak(current: Overlay, changes: Batch, path: Path)
    ensures Names(changes, path) <==> Fold(None, changes, path).Some?
    ensures Fold(Some(current), changes, path)
      == match Fold(None, changes, path)
         case None => Some(current)
         case Some(peak) => if peak.version > current.version then Some(peak) else Some(current)
  {
    if changes != [] {
      var front, last := changes[..|changes| - 1], changes[|changes| - 1];
      assert front + [last] == changes;
      NamesAppended(front, last, path);
      FoldPeak(current, front, path);
    }
  }

  /** Where one path ends up: by replay, and by its whole history. */
  lemma PathEnds(history: seq<Batch>, batches: seq<Batch>, index: map<Path, nat>, path: Path)
    requires LogFormed(history, batches, index)
    ensures path !in index ==> FoldBatches(batches, path) == None && FoldBatches(history, path) == None
    ensures path in index ==>
      var k := index[path];
      && k < |history|
      && FoldBatches(batches, path) == Fold(None, history[k], path)
      && FoldBatches(history, path) == Fold(FoldBatches(history[..k], path), history[k], path)
  {
    hide Fold, FoldBatches, Names, CountPath;
    forall j | 0 <= j < |batches| && (path !in index || j != index[path]) ensures !Names(batches[j], path) {
      assert KeepsNewest(history, batches, index, path, j);
    }
    FoldNothing(path);
    assert batches[..0] == [] && history[..0] == [];
    if path !in index {
      FoldTail(batches, 0, path);
      FoldTail(history, 0, path);
    } else {
      var k := index[path];
      assert NewestAt(history, path, k) && KeepsNewest(history, batches, index, path, k);
      FoldTail(history, k + 1, path);
      FoldTail(batches, k + 1, path);
      FoldNext(history, k, path);
      FoldNext(batches, k, path);
      FoldTail(batches[..k], 0, path);
      assert batches[..k][..0] == [];
    }
  }

  lemma FoldNothing(path: Path)
    ensures FoldBatches([], path) == None
  {
  }

  lemma FoldNext(batches: seq<Batch>, k: nat, path: Path)
    requires k < |batches|
    ensures FoldBatches(batches[..k + 1], path) == Fold(FoldBatches(batches[..k], path), batches[k], path)
  {
    assert batches[..k + 1][..k] == batches[..k];
  }

  /** Replaying restores a path's overlay exactly when its newest batch raised the version above
  what was there, or named again what was there. */
  lemma PathReplaysIff(history: seq<Batch>, batches: seq<Batch>, index: map<Path, nat>, path: Path)
    requires LogFormed(history, batches, index) && path in index
    ensures index[path] < |history|
    ensures var before, peak := FoldBatches(history[..index[path]], path), Fold(None, history[index[path]], path);
      FoldBatches(batches, path) == FoldBatches(history, path)
      <==> before.None? || peak.None? || peak.value.version > before.value.version || peak == before
  {
    PathEnds(history, batches, index, path);
    var before := FoldBatches(history[..index[path]], path);
    if before.Some? { FoldPeak(before.value, history[index[path]], path); }
    hide Fold, FoldBatches, LogFormed;
  }

  /** The batches of an editing session: each change of a path carries a newer version than those of earlier batches. */
  ghost predicate Rising(history: seq<Batch>) {
    forall j, k, a, b :: 0 <= j < k < |history| && 0 <= a < |history[j]| && 0 <= b < |history[k]| && history[j][a].path == history[k][b].path
      ==> history[j][a].overlay.version < history[k][b].overlay.version
  }

  lemma {:induction false} FoldComesFrom(current: Option<Overlay>, changes: Batch, path: Path)
    ensures var end := Fold(current, changes, path);
      end == current || exists a :: 0 <= a < |changes| && changes[a].path == path && end == Some(changes[a].overlay)
  {
    if changes != [] {
      var front, last := changes[..|changes| - 1], changes[|changes| - 1];
      FoldComesFrom(current, front, path);
      var before := Fold(current, front, path);
      if before != current {
        var a :| 0 <= a < |front| && front[a].path == path && before == Some(front[a].overlay);
        assert changes[a] == front[a];
      }
      assert changes[|changes| - 1] == last;
    }
  }

  lemma {:induction false} OverlayComesFrom(batches: seq<Batch>, path: Path) returns (j: nat, a: nat)
    requires FoldBatches(batches, path).Some?
    ensures j < |batches| && a < |batches[j]| && batches[j][a].path == path && FoldBatches(batches, path) == Some(batches[j][a].overlay)
  {
    var n := |batches| - 1;
    var before := FoldBatches(batches[..n], path);
    FoldComesFrom(before, batches[n], path);
    if FoldBatches(batches, path) == before {
      j, a := OverlayComesFrom(batches[..n], path);
    } else {
      j := n;
      a :| 0 <= a < |batches[n]| && batches[n][a].path == path && FoldBatches(batches, path) == Some(batches[n][a].overlay);
    }
  }

  /** With rising versions, replaying the superseded batches reaches the generation and the overlays of the whole history. */
  lemma ReplayReachesHistory(history: seq<Batch>, batches: seq<Batch>, index: map<Path, nat>)
    requires LogFormed(history, batches, index)
    ensures Run(Opened, batches).generation == Run(Opened, history).generation == 1 + |history|
    ensures Rising(history) ==> Run(Opened, batches) == Run(Opened, history)
  {
    RunAt(batches, "");
    RunAt(history, "");
    if Rising(history) {
      forall path ensures OverlayAt(Run(Opened, batches).overlays, path) == OverlayAt(Run(Opened, history).overlays, path) {
        RunAt(batches, path);
        RunAt(history, path);
        RisingReplays(history, batches, index, path);
      }
      SameOverlays(Run(Opened, batches).overlays, Run(Opened, history).overlays);
    }
    hide Run, LogFormed, OverlayAt;
  }

  lemma RisingReplays(history: seq<Batch>, batches: seq<Batch>, index: map<Path, nat>, path: Path)
    requires LogFormed(history, batches, index) && Rising(history)
    ensures FoldBatches(batches, path) == FoldBatches(history, path)
  {
    PathEnds(history, batches, index, path);
    if path in index {
      PathReplaysIff(history, batches, index, path);
      var k := index[path];
      var before, peak := FoldBatches(history[..k], path), Fold(None, history[k], path);
      FoldComesFrom(None, history[k], path);
      if before.Some? && peak.Some? {
        var b :| 0 <= b < |history[k]| && history[k][b].path == path && peak == Some(history[k][b].overlay);
        var j, a := OverlayComesFrom(history[..k], path);
        assert history[j][a].path == history[k][b].path;
      }
    }
  }

  /** Without rising versions it does not: an older version sent after a newer one is skipped the first time, but replay has only it. */
  lemma OlderVersionReplays(path: Path, newer: Overlay, older: Overlay)
    requires older.version < newer.version
    ensures var history := [[Change(path, newer)], [Change(path, older)]];
      var batches := [[], [Change(path, older)]];
      LogFormed(history, batches, map[path := 1])
      && Run(Opened, history).overlays == map[path := newer] && Run(Opened, batches).overlays == map[path := older]
  {
    var first, second := [Change(path, newer)], [Change(path, older)];
    TwoBatches(first, second);
    TwoBatches([], second);
    OneChange(map[], Change(path, newer));
    OneChange(map[path := newer], Change(path, older));
    OneChange(map[], Change(path, older));
    assert first[0].path == path && second[0].path == path;
    hide Run, AcceptAll, Fold;
  }

  lemma TwoBatches(first: Batch, second: Batch)
    ensures Run(Opened, [first, second]).overlays == AcceptAll(AcceptAll(map[], first), second)
  {
    RunNext([], first);
    RunNext([first], second);
    assert [] + [first] == [first] && [first] + [second] == [first, second];
  }

  lemma RunNext(batches: seq<Batch>, changes: Batch)
    ensures Run(Opened, batches + [changes]) == Updated(Run(Opened, batches), changes)
  {
    assert (batches + [changes])[..|batches|] == batches;
  }

  lemma OneChange(overlays: map<Path, Overlay>, change: Change)
    ensures AcceptAll(overlays, [change]) == Accept(overlays, change)
  {
    assert [change][..0] == [];
  }

  // --- how much is kept ---

  function CountPath(changes: Batch, path: Path): nat {
    if changes == [] then 0 else CountPath(changes[..|changes| - 1], path) + (if changes[|changes| - 1].path == path then 1 else 0)
  }

  function CountBatches(batches: seq<Batch>, path: Path): nat {
    if batches == [] then 0 else CountBatches(batches[..|batches| - 1], path) + CountPath(batches[|batches| - 1], path)
  }

  lemma {:induction false} CountUnnamed(changes: Batch, path: Path)
    ensures CountPath(changes, path) == 0 <==> !Names(changes, path)
  {
    if changes != [] {
      var front, last := changes[..|changes| - 1], changes[|changes| - 1];
      assert front + [last] == changes;
      NamesAppended(front, last, path);
      CountUnnamed(front, path);
    }
  }

  /** All a path's kept overlays are in one batch. */
  lemma {:induction false} CountNewest(batches: seq<Batch>, path: Path, k: nat)
    requires forall j :: 0 <= j < |batches| && j != k ==> !Names(batches[j], path)
    ensures CountBatches(batches, path) == if k < |batches| then CountPath(batches[k], path) else 0
  {
    if batches != [] {
      var n := |batches| - 1;
      CountNewest(batches[..n], path, k);
      if n != k { CountUnnamed(batches[n], path); }
    }
  }

  /** When no batch repeats a path, one overlay a path is kept, however often it was edited. */
  lemma OneOverlayKept(history: seq<Batch>, batches: seq<Batch>, index: map<Path, nat>, path: Path)
    requires LogFormed(history, batches, index)
    requires forall k :: 0 <= k < |history| ==> CountPath(history[k], path) <= 1
    ensures CountBatches(batches, path) == if path in index then 1 else 0
  {
    var k := if path in index then index[path] else |batches|;
    forall j | 0 <= j < |batches| && j != k ensures !Names(batches[j], path) {
      assert KeepsNewest(history, batches, index, path, j);
    }
    CountNewest(batches, path, k);
    if path in index {
      assert NewestAt(history, path, k) && KeepsNewest(history, batches, index, path, k);
      CountUnnamed(batches[k], path);
    }
    hide CountPath, CountBatches, Fold, Names;
  }
}
