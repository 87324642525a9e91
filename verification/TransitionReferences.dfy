/** The exact symbol delta and its per-path reference operations
(internal/typefacts/wire_transition_diff.go:250-321). */
module TransitionReferences {
  import opened Order
  import opened SortedRows
  import opened Facts
  import opened KeyedEdits
  import opened RetainedSymbols
  import opened SymbolDeltas
  import opened TransitionSymbols

  type RunEdits = seq<Row<seq<Location>>>

  /** `referencePathEnd`: the leading run at one path. */
  method ReferencePathEnd(references: seq<Location>, path: Path) returns (end: nat)
    requires PathOrdered(references) && (references != [] ==> !Less(references[0].path, path))
    ensures end <= |references| && references[..end] == LocationsAt(references, path)
    ensures forall other :: LocationsAt(references[end..], other) == if other == path then [] else LocationsAt(references, other)
    ensures end < |references| ==> Less(path, references[end].path)
    ensures references != [] && references[0].path == path ==> end > 0
  {
    end := 0;
    while end < |references| && references[end].path == path
      invariant end <= |references| && forall k :: 0 <= k < end ==> references[k].path == path
    {
      end := end + 1;
    }
    LeadingRun(references, path, end);
  }

  lemma LeadingRun(references: seq<Location>, path: Path, end: nat)
    requires PathOrdered(references) && (references != [] ==> !Less(references[0].path, path))
    requires end <= |references| && (forall k :: 0 <= k < end ==> references[k].path == path)
    requires end < |references| ==> references[end].path != path
    ensures references[..end] == LocationsAt(references, path)
    ensures forall other :: LocationsAt(references[end..], other) == if other == path then [] else LocationsAt(references, other)
    ensures end < |references| ==> Less(path, references[end].path)
  {
    hide Less, LocationsAt;
    TotalOrder();
    var run, rest := references[..end], references[end..];
    assert references == run + rest;
    if end < |references| {
      assert AtMost(references[0].path, references[end].path);
    }
    forall k | 0 <= k < |rest| ensures rest[k].path != path {
      assert AtMost(references[end].path, references[end + k].path);
    }
    LocationsAtNone(rest, path);
    forall other ensures LocationsAt(rest, other) == if other == path then [] else LocationsAt(references, other) {
      LocationsAtConcat(run, rest, other);
      LocationsAtRun(run, path, other);
    }
    LocationsAtConcat(run, rest, path);
    LocationsAtRun(run, path, path);
    assert run + [] == run;
  }

  lemma {:induction false} LocationsAtNone(references: seq<Location>, path: Path)
    requires forall k :: 0 <= k < |references| ==> references[k].path != path
    ensures LocationsAt(references, path) == []
  {
    if references != [] { LocationsAtNone(references[..|references| - 1], path); }
  }

  function RunDiff(previous: seq<Location>, next: seq<Location>, path: Path): Option<seq<Location>> {
    if LocationsAt(previous, path) == LocationsAt(next, path) then None else Some(LocationsAt(next, path))
  }

  /** A path is behind both remainders, with its operation planned, or untouched. */
  ghost predicate RunWalked(previous: seq<Location>, next: seq<Location>, left: seq<Location>, right: seq<Location>, edits: RunEdits, path: Path) {
    || (LocationsAt(left, path) == [] && LocationsAt(right, path) == [] && Find(edits, path) == RunDiff(previous, next, path))
    || (LocationsAt(left, path) == LocationsAt(previous, path) && LocationsAt(right, path) == LocationsAt(next, path) && Find(edits, path) == None)
  }

  ghost predicate RunsWalked(previous: seq<Location>, next: seq<Location>, left: seq<Location>, right: seq<Location>, edits: RunEdits) {
    && PathOrdered(left) && PathOrdered(right) && Sorted(edits)
    && (left != [] ==> Below(edits, left[0].path)) && (right != [] ==> Below(edits, right[0].path))
    && (forall path :: RunWalked(previous, next, left, right, edits, path))
  }

  lemma RunsStart(previous: seq<Location>, next: seq<Location>)
    requires PathOrdered(previous) && PathOrdered(next)
    ensures RunsWalked(previous, next, previous, next, [])
  {
    hide Less, LocationsAt;
    FindEmpty<seq<Location>>();
  }

  lemma RunsEnd(previous: seq<Location>, next: seq<Location>, edits: RunEdits)
    requires RunsWalked(previous, next, [], [], edits)
    ensures Sorted(edits) && forall path :: Find(edits, path) == RunDiff(previous, next, path)
  {
    hide Less, LocationsAt, Find;
    assert LocationsAt([], "") == [] by { LocationsAtNone([], ""); }
    forall path ensures Find(edits, path) == RunDiff(previous, next, path) {
      LocationsAtNone([], path);
      assert RunWalked(previous, next, [], [], edits, path);
    }
  }

  lemma RunsStep(previous: seq<Location>, next: seq<Location>, left: seq<Location>, right: seq<Location>, edits: RunEdits,
      path: Path, l: nat, r: nat)
    requires RunsWalked(previous, next, left, right, edits) && l <= |left| && r <= |right|
    requires (left != [] && left[0].path == path) || (right != [] && right[0].path == path)
    requires left[..l] == LocationsAt(left, path) && right[..r] == LocationsAt(right, path)
    requires forall other :: LocationsAt(left[l..], other) == if other == path then [] else LocationsAt(left, other)
    requires forall other :: LocationsAt(right[r..], other) == if other == path then [] else LocationsAt(right, other)
    requires (l < |left| ==> Less(path, left[l].path)) && (r < |right| ==> Less(path, right[r].path))
    requires left[..l] != [] || right[..r] != []
    ensures RunsWalked(previous, next, left[l..], right[r..],
      if left[..l] == right[..r] then edits else edits + [Row(path, right[..r])])
  {
    hide *;
    var after := if left[..l] == right[..r] then edits else edits + [Row(path, right[..r])];
    UnderPath(previous, next, left, right, edits, path);
    PushRun(edits, path, left[..l], right[..r]);
    forall other ensures RunWalked(previous, next, left[l..], right[r..], after, other) {
      RunStepAt(previous, next, left, right, edits, path, l, r, after, other);
    }
    RunsNext(previous, next, left, right, edits, path, l, r, after);
  }

  lemma UnderPath(previous: seq<Location>, next: seq<Location>, left: seq<Location>, right: seq<Location>, edits: RunEdits, path: Path)
    requires RunsWalked(previous, next, left, right, edits)
    requires (left != [] && left[0].path == path) || (right != [] && right[0].path == path)
    ensures Sorted(edits) && Below(edits, path)
  {
    hide Less, LocationsAt, Find;
  }

  lemma PushRun(edits: RunEdits, path: Path, before: seq<Location>, run: seq<Location>)
    requires Sorted(edits) && Below(edits, path)
    ensures var after := if before == run then edits else edits + [Row(path, run)];
      && Sorted(after) && (forall key :: Less(path, key) ==> Below(after, key))
      && (forall other :: Find(after, other) == if other == path && before != run then Some(run) else Find(edits, other))
    ensures Find(edits, path) == None
  {
    hide Less, Find;
    TotalOrder();
    BelowAbsent(edits, path);
    if before != run {
      SortedAppend(edits, Row(path, run));
      forall other ensures Find(edits + [Row(path, run)], other) == if other == path then Some(run) else Find(edits, other) {
        FindAppend(edits, Row(path, run), other);
      }
    }
  }

  lemma RunStepAt(previous: seq<Location>, next: seq<Location>, left: seq<Location>, right: seq<Location>, edits: RunEdits,
      path: Path, l: nat, r: nat, after: RunEdits, other: Path)
    requires RunsWalked(previous, next, left, right, edits) && l <= |left| && r <= |right|
    requires left[..l] == LocationsAt(left, path) && right[..r] == LocationsAt(right, path)
    requires forall p :: LocationsAt(left[l..], p) == if p == path then [] else LocationsAt(left, p)
    requires forall p :: LocationsAt(right[r..], p) == if p == path then [] else LocationsAt(right, p)
    requires left[..l] != [] || right[..r] != []
    requires Find(edits, path) == None
    requires forall p :: Find(after, p) == if p == path && left[..l] != right[..r] then Some(right[..r]) else Find(edits, p)
    ensures RunWalked(previous, next, left[l..], right[r..], after, other)
  {
    hide LocationsAt, Less, Find, Sorted, Below, PathOrdered;
    assert RunWalked(previous, next, left, right, edits, other);
  }

  lemma RunsNext(previous: seq<Location>, next: seq<Location>, left: seq<Location>, right: seq<Location>, edits: RunEdits,
      path: Path, l: nat, r: nat, after: RunEdits)
    requires RunsWalked(previous, next, left, right, edits) && l <= |left| && r <= |right|
    requires (l < |left| ==> Less(path, left[l].path)) && (r < |right| ==> Less(path, right[r].path))
    requires Sorted(after) && (forall key :: Less(path, key) ==> Below(after, key))
    requires forall p :: RunWalked(previous, next, left[l..], right[r..], after, p)
    ensures RunsWalked(previous, next, left[l..], right[r..], after)
  {
    hide LocationsAt, Less, Find, Sorted, Below, RunWalked;
  }

  /** `planExactReferenceDelta`: one operation for each path whose run differs, in path order. */
  method PlanReferences(previous: seq<Location>, next: seq<Location>) returns (edits: RunEdits)
    requires PathOrdered(previous) && PathOrdered(next)
    ensures Sorted(edits) && forall path :: Find(edits, path) == RunDiff(previous, next, path)
  {
    hide *;
    var left, right := previous, next;
    edits := [];
    RunsStart(previous, next);
    while left != [] || right != []
      invariant RunsWalked(previous, next, left, right, edits)
      decreases |left| + |right|
    {
      var path: Path;
      if left == [] { path := right[0].path; }
      else if right == [] { path := left[0].path; }
      else if Less(left[0].path, right[0].path) { path := left[0].path; }
      else { path := right[0].path; }
      LeastRun(previous, next, left, right, edits, path);
      var l := ReferencePathEnd(left, path);
      var r := ReferencePathEnd(right, path);
      RunsStep(previous, next, left, right, edits, path, l, r);
      if left[..l] != right[..r] { edits := edits + [Row(path, right[..r])]; }
      left, right := left[l..], right[r..];
    }
    RunsEnd(previous, next, edits);
  }

  lemma LeastRun(previous: seq<Location>, next: seq<Location>, left: seq<Location>, right: seq<Location>, edits: RunEdits, path: Path)
    requires RunsWalked(previous, next, left, right, edits) && (left != [] || right != [])
    requires path == (if left == [] || (right != [] && !Less(left[0].path, right[0].path)) then right[0].path else left[0].path)
    ensures PathOrdered(left) && PathOrdered(right)
    ensures (left != [] ==> !Less(left[0].path, path)) && (right != [] ==> !Less(right[0].path, path))
  {
    hide LocationsAt, Less, Find;
    TotalOrder();
  }

  // --- folding reference operations ---

  /** The operations of one symbol, as the delta carries them. */
  function AsSymbolOps(id: SymbolID, edits: RunEdits): (ops: SymbolOps)
    ensures |ops| == |edits|
    ensures forall k :: 0 <= k < |edits| ==> ops[k] == Row(id, ReplacePath(edits[k].key, edits[k].value))
  {
    seq(|edits|, k requires 0 <= k < |edits| => Row(id, ReplacePath(edits[k].key, edits[k].value)))
  }

  function EditedRuns(runs: seq<Row<seq<Location>>>, edits: RunEdits): seq<Row<seq<Location>>> {
    if edits == [] then runs
    else
      var last := edits[|edits| - 1];
      Change(EditedRuns(runs, edits[..|edits| - 1]), last.key, RunOrNone(last.value))
  }

  lemma {:induction false} EditedRunsMeaning(runs: seq<Row<seq<Location>>>, edits: RunEdits)
    requires Sorted(runs) && Sorted(edits)
    ensures Sorted(EditedRuns(runs, edits))
    ensures forall path :: (
      Find(EditedRuns(runs, edits), path) == if Find(edits, path).Some? then RunOrNone(Find(edits, path).value) else Find(runs, path))
  {
    hide Less, Find, Change;
    if edits == [] {
      FindEmpty<seq<Location>>();
    } else {
      var front, last := edits[..|edits| - 1], edits[|edits| - 1];
      EditedRunsMeaning(runs, front);
      ChangeMeaning(EditedRuns(runs, front), last.key, RunOrNone(last.value));
      assert edits == front + [last];
      forall path ensures Find(edits, path) == if path == last.key then Some(last.value) else Find(front, path) {
        FindAppend(front, last, path);
      }
    }
  }

  lemma {:induction false} FoldEdits(view: SymbolView, id: SymbolID, edits: RunEdits)
    ensures FoldKey(SymbolStep, Some(view), AsSymbolOps(id, edits), id) == Some(view.(runs := EditedRuns(view.runs, edits)))
  {
    hide Change, RunOrNone;
    var ops := AsSymbolOps(id, edits);
    if edits != [] {
      FoldEdits(view, id, edits[..|edits| - 1]);
      assert ops[..|ops| - 1] == AsSymbolOps(id, edits[..|edits| - 1]);
    }
  }

  /** The planned reference operations turn the previous list into the next. */
  lemma EditsLand(previous: seq<Location>, next: seq<Location>, edits: RunEdits)
    requires PathOrdered(previous) && PathOrdered(next) && Sorted(edits)
    requires forall path :: Find(edits, path) == RunDiff(previous, next, path)
    ensures EditedRuns(RunsOf(previous), edits) == RunsOf(next)
  {
    hide *;
    RunsOfValid(previous);
    RunsOfValid(next);
    RunsValidSorted(RunsOf(previous));
    RunsValidSorted(RunsOf(next));
    EditedRunsMeaning(RunsOf(previous), edits);
    FlattenRunsOf(previous);
    FlattenRunsOf(next);
    forall path ensures Find(EditedRuns(RunsOf(previous), edits), path) == Find(RunsOf(next), path) {
      RunAtIsFilter(RunsOf(previous), path);
      RunAtIsFilter(RunsOf(next), path);
      RunFound(RunsOf(previous), path);
      RunFound(RunsOf(next), path);
      RunDiffIs(previous, next, path);
    }
    FindExtensional(EditedRuns(RunsOf(previous), edits), RunsOf(next));
  }

  lemma RunDiffIs(previous: seq<Location>, next: seq<Location>, path: Path)
    ensures RunDiff(previous, next, path)
      == (if LocationsAt(previous, path) == LocationsAt(next, path) then None else Some(LocationsAt(next, path)))
  {
  }

  lemma RunFound(runs: seq<Row<seq<Location>>>, path: Path)
    requires RunsValid(runs)
    ensures Find(runs, path) == RunOrNone(RunAt(runs, path))
  {
    hide Less, Find, Sorted;
    if Find(runs, path).Some? {
      var at := FindWitness(runs, path);
      assert RunValid(runs[at]);
    }
  }

  // --- the exact symbol delta ---

  /** A canonical symbol table: ordered references, and none on an alias. */
  ghost predicate CanonicalSymbols(rows: seq<Row<SymbolBody>>) {
    Sorted(rows) && forall i :: 0 <= i < |rows| ==> CanonicalBody(rows[i].value)
  }

  ghost predicate CanonicalBody(body: SymbolBody) {
    PathOrdered(body.references) && (body.aliasTarget != "" ==> body.references == [])
  }

  function ViewAt(rows: seq<Row<SymbolBody>>, id: SymbolID): Option<SymbolView> {
    MapOption(ViewOf, Find(rows, id))
  }

  lemma CanonicalFound(rows: seq<Row<SymbolBody>>, id: SymbolID)
    requires CanonicalSymbols(rows) && Find(rows, id).Some?
    ensures CanonicalBody(Find(rows, id).value)
  {
    hide Less, Find, PathOrdered;
    var at := FindWitness(rows, id);
  }

  /** The order of a delta's symbol operations: by ID, the paths of one symbol in turn. */
  predicate EditBefore(a: Row<SymbolEdit>, b: Row<SymbolEdit>) {
    Less(a.key, b.key) || (a.key == b.key && a.value.ReplacePath? && b.value.ReplacePath? && Less(a.value.path, b.value.path))
  }

  /** The operation says what the target holds. */
  predicate EditFrom(previous: Option<SymbolBody>, next: Option<SymbolBody>, edit: SymbolEdit) {
    match edit
    case ReplaceSymbol(body) => next == Some(body)
    case RemoveSymbol => previous.Some? && next.None?
    case ReplacePath(path, references) =>
      && previous.Some? && next.Some? && references == LocationsAt(next.value.references, path)
      && (references != [] || LocationsAt(previous.value.references, path) != [])
  }

  ghost predicate GroupOf(id: SymbolID, group: SymbolOps) {
    && (forall k :: 0 <= k < |group| ==> group[k].key == id && EditValid(group[k].value))
    && (forall k :: 0 < k < |group| ==> EditBefore(group[k - 1], group[k]))
  }

  ghost predicate GroupFrom(previous: Option<SymbolBody>, next: Option<SymbolBody>, group: SymbolOps) {
    forall k :: 0 <= k < |group| ==> EditFrom(previous, next, group[k].value)
  }

  /** Every operation of the group is acceptable where it is reached. */
  ghost predicate GroupAccepted(value: Option<SymbolView>, id: SymbolID, group: SymbolOps) {
    forall k :: 0 <= k < |group| ==> StepAccepted(FoldKey(SymbolStep, value, group[..k], id), group[k].value)
  }

  /** The operations of one candidate. */
  method PlanSymbol(base: seq<Row<SymbolBody>>, target: seq<Row<SymbolBody>>, id: SymbolID) returns (group: SymbolOps)
    requires CanonicalSymbols(base) && CanonicalSymbols(target)
    ensures GroupOf(id, group) && GroupAccepted(ViewAt(base, id), id, group)
    ensures GroupFrom(Find(base, id), Find(target, id), group)
    ensures FoldKey(SymbolStep, ViewAt(base, id), group, id) == ViewAt(target, id)
  {
    hide *;
    var previous, next := Find(base, id), Find(target, id);
    ViewIs(base, id);
    ViewIs(target, id);
    if previous.Some? && next.None? {
      group := [Row(id, RemoveSymbol)];
      OneOp(ViewAt(base, id), id, RemoveSymbol);
      OneFrom(previous, next, id, RemoveSymbol);
    } else if next.Some? && (previous.None? || previous.value.aliasTarget != next.value.aliasTarget
        || previous.value.declarations != next.value.declarations) {
      CanonicalFound(target, id);
      CanonicalParts(next.value);
      group := [Row(id, ReplaceSymbol(next.value))];
      OneOp(ViewAt(base, id), id, ReplaceSymbol(next.value));
      OneFrom(previous, next, id, ReplaceSymbol(next.value));
    } else if next.Some? {
      CanonicalFound(base, id);
      CanonicalFound(target, id);
      CanonicalParts(previous.value);
      CanonicalParts(next.value);
      var edits := PlanReferences(previous.value.references, next.value.references);
      EditsLand(previous.value.references, next.value.references, edits);
      group := AsSymbolOps(id, edits);
      FoldEdits(ViewOf(previous.value), id, edits);
      EditsGroup(previous.value, next.value, id, edits);
      EditsFrom(previous.value, next.value, id, edits);
    } else {
      group := [];
      NoOps(ViewAt(base, id), id);
    }
  }

  lemma ViewIs(rows: seq<Row<SymbolBody>>, id: SymbolID)
    ensures ViewAt(rows, id) == if Find(rows, id).None? then None else Some(ViewOf(Find(rows, id).value))
    ensures forall body :: ViewOf(body) == SymbolView(body.aliasTarget, body.declarations, RunsOf(body.references))
  {
    hide Find, RunsOf;
  }

  lemma CanonicalParts(body: SymbolBody)
    requires CanonicalBody(body)
    ensures PathOrdered(body.references) && (body.aliasTarget != "" ==> body.references == [])
  {
  }

  lemma NoOps(value: Option<SymbolView>, id: SymbolID)
    ensures GroupOf(id, []) && GroupAccepted(value, id, []) && GroupFrom(None, None, []) && FoldKey(SymbolStep, value, [], id) == value
  {
  }

  lemma OneOp(value: Option<SymbolView>, id: SymbolID, edit: SymbolEdit)
    requires !edit.ReplacePath? && (edit.ReplaceSymbol? ==> PathOrdered(edit.body.references))
    ensures GroupOf(id, [Row(id, edit)]) && GroupAccepted(value, id, [Row(id, edit)])
    ensures FoldKey(SymbolStep, value, [Row(id, edit)], id)
      == if edit.RemoveSymbol? then None else Some(ViewOf(edit.body))
  {
    hide ViewOf;
    assert [Row(id, edit)][..0] == [];
  }

  lemma OneFrom(previous: Option<SymbolBody>, next: Option<SymbolBody>, id: SymbolID, edit: SymbolEdit)
    requires !edit.ReplacePath? && (if edit.RemoveSymbol? then previous.Some? && next.None? else next == Some(edit.body))
    ensures GroupFrom(previous, next, [Row(id, edit)])
  {
  }

  lemma EditsFrom(previous: SymbolBody, next: SymbolBody, id: SymbolID, edits: RunEdits)
    requires Sorted(edits) && forall path :: Find(edits, path) == RunDiff(previous.references, next.references, path)
    ensures GroupFrom(Some(previous), Some(next), AsSymbolOps(id, edits))
  {
    hide Less, Find, LocationsAt;
    var ops := AsSymbolOps(id, edits);
    forall k | 0 <= k < |ops| ensures EditFrom(Some(previous), Some(next), ops[k].value) {
      FindAt(edits, k);
      assert RunDiff(previous.references, next.references, edits[k].key) == Some(edits[k].value);
    }
  }

  lemma EditsGroup(previous: SymbolBody, next: SymbolBody, id: SymbolID, edits: RunEdits)
    requires CanonicalBody(previous) && CanonicalBody(next) && previous.aliasTarget == next.aliasTarget && Sorted(edits)
    requires forall path :: Find(edits, path) == RunDiff(previous.references, next.references, path)
    ensures GroupOf(id, AsSymbolOps(id, edits)) && GroupAccepted(Some(ViewOf(previous)), id, AsSymbolOps(id, edits))
  {
    hide Less, Find, ViewOf, Change, EditedRuns;
    var ops := AsSymbolOps(id, edits);
    forall k | 0 < k < |ops| ensures EditBefore(ops[k - 1], ops[k]) {
      assert Less(edits[k - 1].key, edits[k].key);
    }
    forall k | 0 <= k < |ops| ensures EditValid(ops[k].value) && StepAccepted(FoldKey(SymbolStep, Some(ViewOf(previous)), ops[..k], id), ops[k].value) {
      FindAt(edits, k);
      LocationsAtIs(next.references, edits[k].key);
      assert ops[..k] == AsSymbolOps(id, edits[..k]);
      FoldEdits(ViewOf(previous), id, edits[..k]);
      AliasOfView(previous);
    }
  }

  lemma AliasOfView(body: SymbolBody)
    ensures ViewOf(body).aliasTarget == body.aliasTarget
  {
  }

  lemma {:induction false} LocationsAtIs(references: seq<Location>, path: Path)
    ensures forall k :: 0 <= k < |LocationsAt(references, path)| ==> LocationsAt(references, path)[k].path == path
  {
    if references != [] { LocationsAtIs(references[..|references| - 1], path); }
  }

  // --- all candidates ---

  lemma {:induction false} FoldConcat(value: Option<SymbolView>, left: SymbolOps, right: SymbolOps, id: SymbolID)
    ensures FoldKey(SymbolStep, value, left + right, id) == FoldKey(SymbolStep, FoldKey(SymbolStep, value, left, id), right, id)
  {
    hide SymbolStep;
    if right == [] {
      assert left + right == left;
    } else {
      assert (left + right)[..|left + right| - 1] == left + right[..|right| - 1];
      FoldConcat(value, left, right[..|right| - 1], id);
    }
  }

  /** The operations planned for a prefix of the sorted candidates. */
  ghost predicate PlannedTo(base: seq<Row<SymbolBody>>, target: seq<Row<SymbolBody>>, ids: seq<SymbolID>, ops: SymbolOps) {
    && GroupedByID(ops) && EditsValid(ops)
    && (forall k :: 0 <= k < |ops| ==> ops[k].key in ids && EditFrom(Find(base, ops[k].key), Find(target, ops[k].key), ops[k].value))
    && (forall k :: 0 < k < |ops| ==> EditBefore(ops[k - 1], ops[k]))
    && (forall id :: FoldKey(SymbolStep, ViewAt(base, id), ops, id) == if id in ids then ViewAt(target, id) else ViewAt(base, id))
    && (forall k :: 0 <= k < |ops| ==> StepAccepted(FoldKey(SymbolStep, ViewAt(base, ops[k].key), ops[..k], ops[k].key), ops[k].value))
  }

  lemma PlannedNone(base: seq<Row<SymbolBody>>, target: seq<Row<SymbolBody>>)
    ensures PlannedTo(base, target, [], [])
  {
    hide ViewAt;
  }

  lemma PlannedStep(base: seq<Row<SymbolBody>>, target: seq<Row<SymbolBody>>, ids: seq<SymbolID>, id: SymbolID, ops: SymbolOps, group: SymbolOps)
    requires PlannedTo(base, target, ids, ops) && GroupOf(id, group) && GroupAccepted(ViewAt(base, id), id, group)
    requires GroupFrom(Find(base, id), Find(target, id), group)
    requires forall k :: 0 <= k < |ids| ==> Less(ids[k], id)
    requires FoldKey(SymbolStep, ViewAt(base, id), group, id) == ViewAt(target, id)
    ensures PlannedTo(base, target, ids + [id], ops + group)
  {
    hide Less, Find, ViewAt, FoldKey, SymbolStep, StepAccepted, EditValid, EditFrom, EditBefore;
    TotalOrder();
    var all := ops + group;
    StepOrdered(ids, id, ops, group);
    assert forall k :: 0 <= k < |ids| ==> ids[k] != id;
    assert FoldKey(SymbolStep, ViewAt(base, id), ops, id) == ViewAt(base, id);
    forall other ensures FoldKey(SymbolStep, ViewAt(base, other), all, other) == if other in ids + [id] then ViewAt(target, other) else ViewAt(base, other) {
      FoldConcat(ViewAt(base, other), ops, group, other);
      if other != id { FoldAbsent(FoldKey(SymbolStep, ViewAt(base, other), ops, other), group, other); }
    }
    forall k | 0 <= k < |all| ensures StepAccepted(FoldKey(SymbolStep, ViewAt(base, all[k].key), all[..k], all[k].key), all[k].value) {
      if k < |ops| {
        assert all[..k] == ops[..k];
      } else {
        assert all[..k] == ops + group[..k - |ops|];
        FoldConcat(ViewAt(base, id), ops, group[..k - |ops|], id);
        assert StepAccepted(FoldKey(SymbolStep, ViewAt(base, id), group[..k - |ops|], id), group[k - |ops|].value);
      }
    }
    forall i, j | 0 <= i < j < |all| ensures AtMost(all[i].key, all[j].key) {
      if j < |ops| {
        assert AtMost(ops[i].key, ops[j].key);
      } else if i < |ops| {
        assert ops[i].key in ids;
        var k :| 0 <= k < |ids| && ids[k] == ops[i].key;
        assert Less(ids[k], id);
      }
    }
  }

  lemma StepOrdered(ids: seq<SymbolID>, id: SymbolID, ops: SymbolOps, group: SymbolOps)
    requires forall k :: 0 <= k < |ids| ==> Less(ids[k], id)
    requires forall k :: 0 <= k < |ops| ==> ops[k].key in ids
    requires forall k :: 0 <= k < |group| ==> group[k].key == id
    requires forall k :: 0 < k < |ops| ==> EditBefore(ops[k - 1], ops[k])
    requires forall k :: 0 < k < |group| ==> EditBefore(group[k - 1], group[k])
    ensures forall k :: 0 < k < |ops + group| ==> EditBefore((ops + group)[k - 1], (ops + group)[k])
  {
    hide Less;
    var all := ops + group;
    forall k | 0 < k < |all| ensures EditBefore(all[k - 1], all[k]) {
      if k < |ops| {
        assert EditBefore(ops[k - 1], ops[k]);
      } else if k > |ops| {
        assert EditBefore(group[k - |ops| - 1], group[k - |ops|]);
      } else {
        assert ops[k - 1].key in ids;
        var i :| 0 <= i < |ids| && ids[i] == ops[k - 1].key;
        assert Less(ids[i], id);
      }
    }
  }

  /** Ordered symbol operations, each saying what the target holds. */
  ghost predicate EditsFromTables(base: seq<Row<SymbolBody>>, target: seq<Row<SymbolBody>>, ops: SymbolOps) {
    && (forall k :: 0 <= k < |ops| ==> EditFrom(Find(base, ops[k].key), Find(target, ops[k].key), ops[k].value))
    && (forall k :: 0 < k < |ops| ==> EditBefore(ops[k - 1], ops[k]))
  }

  /** `planExactSymbolDelta`: the candidates in ID order. */
  method PlanExactSymbols(base: seq<Row<SymbolBody>>, target: seq<Row<SymbolBody>>, candidates: set<SymbolID>) returns (ops: SymbolOps)
    requires CanonicalSymbols(base) && CanonicalSymbols(target)
    ensures GroupedByID(ops) && EditsValid(ops)
    ensures forall id :: FoldKey(SymbolStep, ViewAt(base, id), ops, id) == if id in candidates then ViewAt(target, id) else ViewAt(base, id)
    ensures Accepted(MapRows(ViewOf, base), ops) && EditsFromTables(base, target, ops)
  {
    hide *;
    var ids := SortedKeys(candidates);
    ops := [];
    PlannedNone(base, target);
    assert ids[..0] == [];
    for k := 0 to |ids|
      invariant PlannedTo(base, target, ids[..k], ops)
    {
      var group := PlanSymbol(base, target, ids[k]);
      PrefixLess(ids, k);
      PlannedStep(base, target, ids[..k], ids[k], ops, group);
      assert ids[..k + 1] == ids[..k] + [ids[k]];
      ops := ops + group;
    }
    assert ids[..|ids|] == ids;
    PlannedAll(base, target, ids, candidates, ops);
  }

  lemma PrefixLess(ids: seq<SymbolID>, k: nat)
    requires StrictlyOrdered(ids) && k < |ids|
    ensures forall i :: 0 <= i < |ids[..k]| ==> Less(ids[..k][i], ids[k])
  {
    hide Less;
  }

  lemma PlannedAll(base: seq<Row<SymbolBody>>, target: seq<Row<SymbolBody>>, ids: seq<SymbolID>, candidates: set<SymbolID>, ops: SymbolOps)
    requires PlannedTo(base, target, ids, ops) && SetOf(ids) == candidates
    ensures GroupedByID(ops) && EditsValid(ops)
    ensures forall id :: FoldKey(SymbolStep, ViewAt(base, id), ops, id) == if id in candidates then ViewAt(target, id) else ViewAt(base, id)
    ensures Accepted(MapRows(ViewOf, base), ops) && EditsFromTables(base, target, ops)
  {
    hide Less, FoldKey, SymbolStep, StepAccepted, EditValid, MapRows, Find, GroupedByID, EditsValid, EditFrom, EditBefore;
    forall id ensures id in ids <==> id in candidates {
    }
    forall k | 0 <= k < |ops|
      ensures StepAccepted(FoldKey(SymbolStep, Find(MapRows(ViewOf, base), ops[k].key), ops[..k], ops[k].key), ops[k].value)
    {
      MapFind(ViewOf, base, ops[k].key);
    }
  }

  /** The exact symbol plan gives the target symbols exactly when the candidates cover every
  differing symbol. */
  lemma ExactSymbolsLandIffCovers(base: seq<Row<SymbolBody>>, target: seq<Row<SymbolBody>>, candidates: set<SymbolID>, ops: SymbolOps)
    requires Sorted(base) && Sorted(target)
    requires forall id :: FoldKey(SymbolStep, ViewAt(base, id), ops, id) == if id in candidates then ViewAt(target, id) else ViewAt(base, id)
    ensures ApplyAll(SymbolStep, MapRows(ViewOf, base), ops) == MapRows(ViewOf, target)
      <==> forall id :: id in candidates || Find(base, id) == Find(target, id)
  {
    hide *;
    var views, goal := MapRows(ViewOf, base), MapRows(ViewOf, target);
    var landed := ApplyAll(SymbolStep, views, ops);
    MapSorted(ViewOf, base);
    MapSorted(ViewOf, target);
    ApplyAllMeaning(SymbolStep, views, ops);
    forall id ensures Find(landed, id) == Find(goal, id) <==> id in candidates || Find(base, id) == Find(target, id) {
      MapFind(ViewOf, base, id);
      MapFind(ViewOf, target, id);
      ViewsEqual(base, target, id);
    }
    if forall id :: id in candidates || Find(base, id) == Find(target, id) { FindExtensional(landed, goal); }
  }

  lemma ViewsEqual(base: seq<Row<SymbolBody>>, target: seq<Row<SymbolBody>>, id: SymbolID)
    ensures ViewAt(base, id) == MapOption(ViewOf, Find(base, id)) && ViewAt(target, id) == MapOption(ViewOf, Find(target, id))
    ensures ViewAt(base, id) == ViewAt(target, id) <==> Find(base, id) == Find(target, id)
  {
    hide Find, RunsOf;
    if Find(base, id).Some? { FlattenRunsOf(Find(base, id).value.references); }
    if Find(target, id).Some? { FlattenRunsOf(Find(target, id).value.references); }
  }
}
