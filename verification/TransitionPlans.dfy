/** The four ways of planning path operations, and when applying a plan to the base
gives the target (internal/typefacts/wire_transition_diff.go:79-205). */
module TransitionPlans {
  import opened Order
  import opened SortedRows
  import opened Facts
  import opened PathTable
  import opened KeyedEdits
  import opened RetainedPaths
  import opened TransitionPaths

  type PathOps = seq<Row<PathOp>>

  function Planned(op: PathOp): Option<PathOp> {
    if op == NoOp then None else Some(op)
  }

  function Emit(ops: PathOps, path: Path, op: PathOp): PathOps {
    if op == NoOp then ops else ops + [Row(path, op)]
  }

  function DiffAt(previous: seq<Row<PathRows>>, next: seq<Row<PathRows>>, path: Path): Option<PathOp> {
    Planned(RowsDifference(RowsOrNone(Find(previous, path)), RowsOrNone(Find(next, path)), true, true, true))
  }

  // --- the fallback plan ---

  ghost predicate Walked(previous: seq<Row<PathRows>>, next: seq<Row<PathRows>>, i: nat, j: nat, ops: PathOps) {
    && i <= |previous| && j <= |next| && Sorted(previous) && Sorted(next) && Sorted(ops)
    && (i < |previous| ==> Below(next[..j], previous[i].key) && Below(ops, previous[i].key))
    && (j < |next| ==> Below(previous[..i], next[j].key) && Below(ops, next[j].key))
    && (forall path :: Find(ops, path) == DiffAt(previous[..i], next[..j], path))
  }

  ghost predicate AtHead(rows: seq<Row<PathRows>>, i: nat, path: Path) {
    i < |rows| && rows[i].key == path
  }

  /** `path` is the smaller of the two heads. */
  ghost predicate LeastHead(previous: seq<Row<PathRows>>, next: seq<Row<PathRows>>, i: nat, j: nat, path: Path) {
    && (AtHead(previous, i, path) || AtHead(next, j, path))
    && (i < |previous| ==> !Less(previous[i].key, path))
    && (j < |next| ==> !Less(next[j].key, path))
  }

  function Skip(rows: seq<Row<PathRows>>, i: nat, path: Path): nat {
    if i < |rows| && rows[i].key == path then i + 1 else i
  }

  function HeadAt(rows: seq<Row<PathRows>>, i: nat, path: Path): PathRows {
    if i < |rows| && rows[i].key == path then rows[i].value else NoRows
  }

  lemma WalkStart(previous: seq<Row<PathRows>>, next: seq<Row<PathRows>>)
    requires Sorted(previous) && Sorted(next)
    ensures Walked(previous, next, 0, 0, [])
  {
    hide Less;
  }

  lemma PrefixBelow(rows: seq<Row<PathRows>>, other: seq<Row<PathRows>>, i: nat, j: nat, path: Path)
    requires Sorted(rows) && i <= |rows|
    requires AtHead(rows, i, path) || (AtHead(other, j, path) && Below(rows[..i], path))
    ensures Below(rows[..i], path)
  {
    hide Less;
  }

  /** Past the least head, in one stream. */
  lemma SkipStream(rows: seq<Row<PathRows>>, i: nat, path: Path)
    requires Sorted(rows) && i <= |rows| && Below(rows[..i], path)
    requires i < |rows| ==> !Less(rows[i].key, path)
    ensures Skip(rows, i, path) <= |rows|
    ensures RowsOrNone(Find(rows[..Skip(rows, i, path)], path)) == HeadAt(rows, i, path)
    ensures forall other :: other != path ==> Find(rows[..Skip(rows, i, path)], other) == Find(rows[..i], other)
    ensures Skip(rows, i, path) < |rows| ==> Less(path, rows[Skip(rows, i, path)].key)
    ensures forall key :: Less(path, key) ==> Below(rows[..Skip(rows, i, path)], key)
  {
    hide Less, Find;
    TotalOrder();
    BelowAbsent(rows[..i], path);
    if i < |rows| && rows[i].key == path {
      assert rows[..i + 1] == rows[..i] + [rows[i]];
      forall other ensures Find(rows[..i + 1], other) == if other == path then Some(rows[i].value) else Find(rows[..i], other) {
        FindAppend(rows[..i], rows[i], other);
      }
    }
  }

  lemma EmitMeaning(ops: PathOps, path: Path, op: PathOp)
    requires Sorted(ops) && Below(ops, path)
    ensures Sorted(Emit(ops, path, op))
    ensures forall other :: Find(Emit(ops, path, op), other) == if other == path then Planned(op) else Find(ops, other)
    ensures forall key :: Less(path, key) ==> Below(Emit(ops, path, op), key)
  {
    hide Less, Find;
    TotalOrder();
    BelowAbsent(ops, path);
    if op != NoOp {
      SortedAppend(ops, Row(path, op));
      forall other ensures Find(ops + [Row(path, op)], other) == if other == path then Some(op) else Find(ops, other) {
        FindAppend(ops, Row(path, op), other);
      }
    }
  }

  /** One step of the walk, whichever side the least path is on. */
  lemma WalkStep(previous: seq<Row<PathRows>>, next: seq<Row<PathRows>>, i: nat, j: nat, ops: PathOps, path: Path)
    requires Walked(previous, next, i, j, ops) && LeastHead(previous, next, i, j, path)
    ensures Walked(previous, next, Skip(previous, i, path), Skip(next, j, path),
      Emit(ops, path, RowsDifference(HeadAt(previous, i, path), HeadAt(next, j, path), true, true, true)))
  {
    hide Less, Find, Sorted, Below, Emit, RowsDifference, Skip, HeadAt;
    var op := RowsDifference(HeadAt(previous, i, path), HeadAt(next, j, path), true, true, true);
    PrefixBelow(previous, next, i, j, path);
    PrefixBelow(next, previous, j, i, path);
    SkipStream(previous, i, path);
    SkipStream(next, j, path);
    EmitMeaning(ops, path, op);
    forall other ensures Find(Emit(ops, path, op), other)
      == DiffAt(previous[..Skip(previous, i, path)], next[..Skip(next, j, path)], other)
    {
    }
  }

  /** `planFallbackPathDelta`: exactly one operation for each path whose rows differ. */
  method PlanFallback(base: Streams, target: Streams) returns (ops: PathOps)
    requires Canonical(base) && Canonical(target)
    ensures Sorted(ops) && forall path :: Find(ops, path) == DiffAt(Merged(base), Merged(target), path)
  {
    hide *;
    ghost var before, after := Merged(base), Merged(target);
    MergedMeaning(base);
    MergedMeaning(target);
    var previous := new PathCursor(base);
    var next := new PathCursor(target);
    ghost var i, j := 0, 0;
    ops := [];
    WalkStart(before, after);
    var left := previous.Valid();
    var right := next.Valid();
    while left || right
      invariant previous.Within() && next.Within()
      invariant i <= |before| && before[i..] == Merged(previous.Rest()) && left == (i < |before|)
      invariant j <= |after| && after[j..] == Merged(next.Rest()) && right == (j < |after|)
      invariant Walked(before, after, i, j, ops)
      decreases |before| - i + |after| - j
    {
      var previousRows, nextRows := Row("", NoRows), Row("", NoRows);
      if left { previousRows := previous.Rows(); }
      if right { nextRows := next.Rows(); }
      var path := if !right || (left && Less(previousRows.key, nextRows.key)) then previousRows.key else nextRows.key;
      HeadsAre(before, after, i, j, path);
      WalkStep(before, after, i, j, ops, path);
      var stepLeft := left && previousRows.key == path;
      var stepRight := right && nextRows.key == path;
      ops := Emit(ops, path, RowsDifference(
        if stepLeft then previousRows.value else NoRows, if stepRight then nextRows.value else NoRows, true, true, true));
      if stepLeft { previous.Next(); i := i + 1; }
      if stepRight { next.Next(); j := j + 1; }
      left := previous.Valid();
      right := next.Valid();
    }
    assert before[..|before|] == before && after[..|after|] == after;
    WalkEnd(before, after, ops);
  }

  lemma WalkEnd(previous: seq<Row<PathRows>>, next: seq<Row<PathRows>>, ops: PathOps)
    requires Walked(previous, next, |previous|, |next|, ops)
    ensures Sorted(ops) && forall path :: Find(ops, path) == DiffAt(previous, next, path)
  {
    hide Less, Find, DiffAt;
    assert previous[..|previous|] == previous && next[..|next|] == next;
  }

  lemma HeadsAre(previous: seq<Row<PathRows>>, next: seq<Row<PathRows>>, i: nat, j: nat, path: Path)
    requires i <= |previous| && j <= |next| && (i < |previous| || j < |next|)
    requires path == if j == |next| || (i < |previous| && Less(previous[i].key, next[j].key)) then previous[i].key else next[j].key
    ensures LeastHead(previous, next, i, j, path)
    ensures Skip(previous, i, path) == if i < |previous| && previous[i].key == path then i + 1 else i
    ensures Skip(next, j, path) == if j < |next| && next[j].key == path then j + 1 else j
    ensures HeadAt(previous, i, path) == if i < |previous| && previous[i].key == path then previous[i].value else NoRows
    ensures HeadAt(next, j, path) == if j < |next| && next[j].key == path then next[j].value else NoRows
  {
    hide Less;
    TotalOrder();
  }

  // --- the manifest plans ---

  datatype PathManifest = PathManifest(sources: set<Path>, entities: set<Path>, files: set<Path>)

  function Candidates(manifest: PathManifest): set<Path> {
    manifest.sources + manifest.entities + manifest.files
  }

  /** `sortUniqueWireTransitionPaths` over the three candidate sets. */
  method CandidatePaths(manifest: PathManifest) returns (paths: seq<Path>)
    ensures StrictlyOrdered(paths) && SetOf(paths) == Candidates(manifest)
  {
    var sources := ListPaths(manifest.sources);
    var entities := ListPaths(manifest.entities);
    var files := ListPaths(manifest.files);
    var all := sources + entities + files;
    SortStringsMeaning(all);
    DedupMeaning(SortStrings(all));
    var sorted := SortStrings(all);
    var backing := new string[|sorted|](i requires 0 <= i < |sorted| => sorted[i]);
    assert backing[..] == sorted;
    var write := CompactInPlace(backing);
    paths := backing[..write];
    assert SetOf(all) == Candidates(manifest);
  }

  method ListPaths(paths: set<Path>) returns (listed: seq<Path>)
    ensures forall path :: path in listed <==> path in paths
  {
    listed := [];
    var remaining := paths;
    while remaining != {}
      invariant remaining <= paths && forall path :: path in listed <==> path in paths && path !in remaining
      decreases |remaining|
    {
      var path :| path in remaining;
      remaining := remaining - {path};
      listed := listed + [path];
    }
  }

  /** The exact plan's operation at a path. */
  function ExactAt(base: Streams, target: Streams, manifest: PathManifest, path: Path): Option<PathOp> {
    if path !in Candidates(manifest) then None
    else Planned(RowsDifference(RowsOf(base, path), RowsOf(target, path),
      path in manifest.sources, path in manifest.entities, path in manifest.files))
  }

  /** The sparse plan's: unconditional on every candidate slot. */
  function SparseAt(target: Streams, manifest: PathManifest, path: Path): Option<PathOp> {
    if path !in Candidates(manifest) then None
    else
      var all := SparseOp(RowsOf(target, path));
      Some(PathOp(
        if path in manifest.sources then all.source else Unchanged,
        if path in manifest.entities then all.entities else Unchanged,
        if path in manifest.files then all.file else Unchanged))
  }

  ghost predicate OpsFor(at: Path -> Option<PathOp>, paths: seq<Path>, ops: PathOps) {
    Sorted(ops) && forall path :: Find(ops, path) == if path in paths then at(path) else None
  }

  lemma OpsStep(at: Path -> Option<PathOp>, paths: seq<Path>, k: nat, ops: PathOps)
    requires StrictlyOrdered(paths) && k < |paths| && OpsFor(at, paths[..k], ops)
    requires Below(ops, paths[k])
    ensures var next := if at(paths[k]).None? then ops else ops + [Row(paths[k], at(paths[k]).value)];
      && OpsFor(at, paths[..k + 1], next)
      && (k + 1 < |paths| ==> Below(next, paths[k + 1]))
  {
    hide Less, Find;
    TotalOrder();
    assert paths[..k + 1] == paths[..k] + [paths[k]];
    var path := paths[k];
    BelowAbsent(ops, path);
    if at(path).Some? {
      var row := Row(path, at(path).value);
      SortedAppend(ops, row);
      forall other ensures Find(ops + [row], other) == if other == path then at(path) else Find(ops, other) { FindAppend(ops, row, other); }
    }
  }

  lemma OpsStart(at: Path -> Option<PathOp>, paths: seq<Path>)
    ensures OpsFor(at, paths[..0], []) && (paths != [] ==> Below<PathOp>([], paths[0]))
  {
  }

  lemma OpsEnd(at: Path -> Option<PathOp>, paths: seq<Path>, candidates: set<Path>, ops: PathOps)
    requires OpsFor(at, paths[..|paths|], ops) && SetOf(paths) == candidates
    requires forall path :: path !in candidates ==> at(path) == None
    ensures Sorted(ops) && forall path :: Find(ops, path) == at(path)
  {
    hide Find;
    assert paths[..|paths|] == paths;
    forall path ensures path in paths <==> path in candidates {
    }
  }

  /** `planExactPathDelta`: only manifest paths are compared, slot by candidate slot. */
  method PlanExact(base: Streams, target: Streams, manifest: PathManifest) returns (ops: PathOps)
    ensures Sorted(ops) && forall path :: Find(ops, path) == ExactAt(base, target, manifest, path)
  {
    hide *;
    var paths := CandidatePaths(manifest);
    ghost var at := path => ExactAt(base, target, manifest, path);
    ops := [];
    OpsStart(at, paths);
    for k := 0 to |paths|
      invariant OpsFor(at, paths[..k], ops)
      invariant k < |paths| ==> Below(ops, paths[k])
    {
      var path := paths[k];
      OpsStep(at, paths, k, ops);
      InCandidates(paths, manifest, k);
      ExactIs(base, target, manifest, path);
      var op := RowsDifference(RowsOf(base, path), RowsOf(target, path),
        path in manifest.sources, path in manifest.entities, path in manifest.files);
      if op != NoOp { ops := ops + [Row(path, op)]; }
    }
    ExactOutside(base, target, manifest);
    OpsEnd(at, paths, Candidates(manifest), ops);
  }

  lemma InCandidates(paths: seq<Path>, manifest: PathManifest, k: nat)
    requires k < |paths| && SetOf(paths) == Candidates(manifest)
    ensures paths[k] in Candidates(manifest)
  {
  }

  lemma ExactIs(base: Streams, target: Streams, manifest: PathManifest, path: Path)
    requires path in Candidates(manifest)
    ensures var op := RowsDifference(RowsOf(base, path), RowsOf(target, path),
        path in manifest.sources, path in manifest.entities, path in manifest.files);
      ExactAt(base, target, manifest, path) == if op != NoOp then Some(op) else None
  {
    hide RowsOf, RowsDifference;
  }

  lemma ExactOutside(base: Streams, target: Streams, manifest: PathManifest)
    ensures forall path :: path !in Candidates(manifest) ==> ExactAt(base, target, manifest, path) == None
    ensures forall path :: path !in Candidates(manifest) ==> SparseAt(target, manifest, path) == None
  {
    hide RowsOf, RowsDifference, Candidates;
  }

  /** `planSparseDelta`, the paths: the client owns the base rows. */
  method PlanSparse(target: Streams, manifest: PathManifest) returns (ops: PathOps)
    ensures Sorted(ops) && forall path :: Find(ops, path) == SparseAt(target, manifest, path)
  {
    hide *;
    var paths := CandidatePaths(manifest);
    ghost var at := path => SparseAt(target, manifest, path);
    ops := [];
    OpsStart(at, paths);
    for k := 0 to |paths|
      invariant OpsFor(at, paths[..k], ops)
      invariant k < |paths| ==> Below(ops, paths[k])
    {
      var path := paths[k];
      OpsStep(at, paths, k, ops);
      InCandidates(paths, manifest, k);
      var rows := RowsOf(target, path);
      SparseIs(target, manifest, path);
      var source: SlotOp<Digest>, entities: SlotOp<seq<EntityFact>>, file: SlotOp<FileFact> := Unchanged, Unchanged, Unchanged;
      if path in manifest.sources { source := if rows.source.Some? then Replace(rows.source.value) else Remove; }
      if path in manifest.entities { entities := if rows.entities != [] then Replace(rows.entities) else Remove; }
      if path in manifest.files { file := if rows.file.Some? then Replace(rows.file.value) else Remove; }
      ops := ops + [Row(path, PathOp(source, entities, file))];
    }
    var none: Streams := Streams([], [], []);
    ExactOutside(none, target, manifest);
    OpsEnd(at, paths, Candidates(manifest), ops);
  }

  lemma SparseIs(target: Streams, manifest: PathManifest, path: Path)
    requires path in Candidates(manifest)
    ensures var rows := RowsOf(target, path);
      SparseAt(target, manifest, path) == Some(PathOp(
        if path in manifest.sources then (if rows.source.Some? then Replace(rows.source.value) else Remove) else Unchanged,
        if path in manifest.entities then (if rows.entities != [] then Replace(rows.entities) else Remove) else Unchanged,
        if path in manifest.files then (if rows.file.Some? then Replace(rows.file.value) else Remove) else Unchanged))
  {
    hide RowsOf;
  }

  /** `planFull` and the full operations: every path the cursor visits has rows. */
  method PlanFull(target: Streams) returns (ops: PathOps)
    requires Canonical(target)
    ensures Sorted(ops) && forall path :: Find(ops, path) == DiffAt([], Merged(target), path)
    ensures forall k :: 0 <= k < |ops| ==> ops[k].value != NoOp
  {
    hide *;
    ghost var rows := Merged(target);
    MergedMeaning(target);
    var cursor := new PathCursor(target);
    var paths: seq<Path> := [];
    ghost var i := 0;
    var valid := cursor.Valid();
    while valid
      invariant cursor.Within() && i <= |rows| && rows[i..] == Merged(cursor.Rest()) && valid == (i < |rows|)
      invariant |paths| == i && forall k :: 0 <= k < i ==> paths[k] == rows[k].key
      decreases |rows| - i
    {
      var path := cursor.CurrentPath();
      FirstMerged(cursor.Rest(), path);
      paths := paths + [path];
      cursor.Next();
      i := i + 1;
      valid := cursor.Valid();
    }
    ops := [];
    for k := 0 to |paths|
      invariant |ops| == k
      invariant forall m :: 0 <= m < k ==> ops[m] == Row(rows[m].key, RowsDifference(NoRows, rows[m].value, true, true, true))
    {
      FindAt(rows, k);
      RowsAreEntry(target, rows[k]);
      var op := RowsDifference(NoRows, RowsOf(target, paths[k]), true, true, true);
      ops := ops + [Row(paths[k], op)];
    }
    FullMeaning(target, rows, ops);
  }

  lemma FirstMerged(rest: Streams, path: Path)
    requires LeastPath(rest) == Some(path) && Merged(rest) != []
    ensures Merged(rest)[0].key == path
  {
    hide LeastPath, Advance, HeadRows;
  }

  lemma RowsAreEntry(target: Streams, row: Row<PathRows>)
    requires EntryOf(RowsOf(target, row.key)) == Some(row.value)
    ensures RowsOf(target, row.key) == row.value
  {
    hide RowsOf;
  }

  lemma FullMeaning(target: Streams, rows: seq<Row<PathRows>>, ops: PathOps)
    requires Sorted(rows) && (forall path :: Find(rows, path) == EntryOf(RowsOf(target, path)))
    requires |ops| == |rows|
    requires forall m :: 0 <= m < |rows| ==> ops[m] == Row(rows[m].key, RowsDifference(NoRows, rows[m].value, true, true, true))
    ensures Sorted(ops) && forall path :: Find(ops, path) == DiffAt([], rows, path)
    ensures forall k :: 0 <= k < |ops| ==> ops[k].value != NoOp
  {
    hide Less, Find, RowsOf, RowsDifference;
    FindEmpty<PathRows>();
    forall k | 0 <= k < |ops| ensures ops[k].value != NoOp {
      FindAt(rows, k);
      DifferenceEmptyIffEqual(NoRows, rows[k].value);
    }
    DifferenceEmptyIffEqual(NoRows, NoRows);
    forall path ensures Find(ops, path) == DiffAt([], rows, path) {
      if Find(rows, path).Some? {
        var k := FindWitness(rows, path);
        FindAt(ops, k);
        DifferenceEmptyIffEqual(NoRows, rows[k].value);
      } else {
        FindAbsent(rows, path);
        FindAbsent(ops, path);
        forall k | 0 <= k < |ops| ensures ops[k].key != path { assert rows[k].key == ops[k].key; }
      }
    }
  }

  // --- applying a plan ---

  function OpOr(op: Option<PathOp>): PathOp {
    match op
    case None => NoOp
    case Some(value) => value
  }

  /** A plan lands on the target exactly when each path's operation does. */
  lemma LandsIff(base: Streams, target: Streams, ops: PathOps)
    requires Canonical(base) && Canonical(target) && Sorted(ops)
    ensures ApplyAll(PathStep, Merged(base), ops) == Merged(target) <==>
      forall path :: ApplyEntry(RowsOf(base, path), OpOr(Find(ops, path))) == EntryOf(RowsOf(target, path))
  {
    hide *;
    MergedMeaning(base);
    MergedMeaning(target);
    ApplyAllMeaning(PathStep, Merged(base), ops);
    var landed := ApplyAll(PathStep, Merged(base), ops);
    forall path ensures Find(landed, path) == ApplyEntry(RowsOf(base, path), OpOr(Find(ops, path))) {
      FoldSorted(PathStep, Find(Merged(base), path), ops, path);
      StepIs(RowsOf(base, path), Find(ops, path));
    }
    if forall path :: ApplyEntry(RowsOf(base, path), OpOr(Find(ops, path))) == EntryOf(RowsOf(target, path)) {
      FindExtensional(landed, Merged(target));
    }
  }

  lemma StepIs(rows: PathRows, op: Option<PathOp>)
    ensures (if op.Some? then PathStep(EntryOf(rows), op.value) else EntryOf(rows)) == ApplyEntry(rows, OpOr(op))
  {
  }

  /** Applying the fallback plan of base and target to base gives target. */
  lemma FallbackLands(base: Streams, target: Streams, ops: PathOps)
    requires Canonical(base) && Canonical(target) && Sorted(ops)
    requires forall path :: Find(ops, path) == DiffAt(Merged(base), Merged(target), path)
    ensures ApplyAll(PathStep, Merged(base), ops) == Merged(target)
  {
    hide *;
    MergedMeaning(base);
    MergedMeaning(target);
    forall path ensures ApplyEntry(RowsOf(base, path), OpOr(Find(ops, path))) == EntryOf(RowsOf(target, path)) {
      DiffIs(Merged(base), Merged(target), RowsOf(base, path), RowsOf(target, path), path);
      DifferenceLands(RowsOf(base, path), RowsOf(target, path), true, true, true);
    }
    LandsIff(base, target, ops);
  }

  lemma DiffIs(previous: seq<Row<PathRows>>, next: seq<Row<PathRows>>, before: PathRows, after: PathRows, path: Path)
    requires Find(previous, path) == EntryOf(before) && Find(next, path) == EntryOf(after)
    ensures OpOr(DiffAt(previous, next, path)) == RowsDifference(before, after, true, true, true)
  {
    hide Find, RowsDifference;
  }

  /** The manifest names every slot that differs. */
  ghost predicate Covers(base: Streams, target: Streams, manifest: PathManifest) {
    forall path :: CoversAt(RowsOf(base, path), RowsOf(target, path), manifest, path)
  }

  predicate CoversAt(before: PathRows, after: PathRows, manifest: PathManifest, path: Path) {
    && (path in manifest.sources || before.source == after.source)
    && (path in manifest.entities || before.entities == after.entities)
    && (path in manifest.files || before.file == after.file)
  }

  /** The exact plan gives the target exactly when its manifest covers every differing slot. */
  lemma ExactLandsIffCovers(base: Streams, target: Streams, manifest: PathManifest, ops: PathOps)
    requires Canonical(base) && Canonical(target) && Sorted(ops)
    requires forall path :: Find(ops, path) == ExactAt(base, target, manifest, path)
    ensures ApplyAll(PathStep, Merged(base), ops) == Merged(target) <==> Covers(base, target, manifest)
  {
    hide *;
    LandsIff(base, target, ops);
    forall path ensures ApplyEntry(RowsOf(base, path), OpOr(Find(ops, path))) == EntryOf(RowsOf(target, path))
      <==> CoversAt(RowsOf(base, path), RowsOf(target, path), manifest, path)
    {
      ExactOp(base, target, manifest, path);
      DifferenceLands(RowsOf(base, path), RowsOf(target, path),
        path in manifest.sources, path in manifest.entities, path in manifest.files);
      CoversAtIs(RowsOf(base, path), RowsOf(target, path), manifest, path);
    }
    CoversIs(base, target, manifest);
  }

  lemma ExactOp(base: Streams, target: Streams, manifest: PathManifest, path: Path)
    ensures OpOr(ExactAt(base, target, manifest, path)) == RowsDifference(RowsOf(base, path), RowsOf(target, path),
      path in manifest.sources, path in manifest.entities, path in manifest.files)
  {
    hide RowsOf;
  }

  lemma CoversAtIs(before: PathRows, after: PathRows, manifest: PathManifest, path: Path)
    ensures CoversAt(before, after, manifest, path) <==>
      (path in manifest.sources || before.source == after.source)
      && (path in manifest.entities || before.entities == after.entities)
      && (path in manifest.files || before.file == after.file)
  {
  }

  lemma CoversIs(base: Streams, target: Streams, manifest: PathManifest)
    ensures Covers(base, target, manifest) <==> forall path :: CoversAt(RowsOf(base, path), RowsOf(target, path), manifest, path)
  {
    hide RowsOf, CoversAt;
  }

  /** The sparse plan gives the target from any base that agrees off the manifest, and only from such. */
  lemma SparseLandsIffCovers(base: Streams, target: Streams, manifest: PathManifest, ops: PathOps)
    requires Canonical(base) && Canonical(target) && Sorted(ops)
    requires forall path :: Find(ops, path) == SparseAt(target, manifest, path)
    ensures ApplyAll(PathStep, Merged(base), ops) == Merged(target) <==> Covers(base, target, manifest)
  {
    hide *;
    LandsIff(base, target, ops);
    forall path ensures ApplyEntry(RowsOf(base, path), OpOr(Find(ops, path))) == EntryOf(RowsOf(target, path))
      <==> CoversAt(RowsOf(base, path), RowsOf(target, path), manifest, path)
    {
      SparseLandsAt(RowsOf(base, path), target, manifest, path);
    }
    CoversIs(base, target, manifest);
  }

  lemma SparseLandsAt(before: PathRows, target: Streams, manifest: PathManifest, path: Path)
    ensures ApplyEntry(before, OpOr(SparseAt(target, manifest, path))) == EntryOf(RowsOf(target, path))
      <==> CoversAt(before, RowsOf(target, path), manifest, path)
  {
    hide RowsOf;
  }

  /** A full plan applied to nothing is the target. */
  lemma FullLands(target: Streams, ops: PathOps)
    requires Canonical(target) && Sorted(ops)
    requires forall path :: Find(ops, path) == DiffAt([], Merged(target), path)
    ensures ApplyAll(PathStep, [], ops) == Merged(target)
  {
    var none := Streams([], [], []);
    assert Canonical(none) && Merged(none) == [];
    FallbackLands(none, target, ops);
  }
}
