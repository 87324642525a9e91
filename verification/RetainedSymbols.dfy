/** The client's retained symbols (crates/typefacts/src/retained_table.rs).

A stored symbol keeps its reference list as an index of per-path runs, so that one
path's references can be replaced without touching the others. */
module RetainedSymbols {
  import opened Order
  import opened SortedRows
  import opened Facts
  import opened KeyedEdits
  import opened PackedIndexes

  // --- reference runs ---

  ghost predicate PathOrdered(references: seq<Location>) {
    forall i, j :: 0 <= i < j < |references| ==> AtMost(references[i].path, references[j].path)
  }

  /** Maximal runs of equal paths. */
  function RunsOf(references: seq<Location>): seq<Row<seq<Location>>> {
    if references == [] then []
    else AddReference(RunsOf(references[..|references| - 1]), references[|references| - 1])
  }

  function AddReference(runs: seq<Row<seq<Location>>>, location: Location): seq<Row<seq<Location>>> {
    if runs != [] && runs[|runs| - 1].key == location.path
    then runs[|runs| - 1 := Row(location.path, runs[|runs| - 1].value + [location])]
    else runs + [Row(location.path, [location])]
  }

  function FlattenRuns(runs: seq<Row<seq<Location>>>): seq<Location> {
    if runs == [] then [] else FlattenRuns(runs[..|runs| - 1]) + runs[|runs| - 1].value
  }

  ghost predicate RunsValid(runs: seq<Row<seq<Location>>>) {
    && Sorted(runs)
    && (forall i :: 0 <= i < |runs| ==> RunValid(runs[i]))
  }

  predicate RunValid(run: Row<seq<Location>>) {
    run.value != [] && forall k :: 0 <= k < |run.value| ==> run.value[k].path == run.key
  }

  function LocationsAt(references: seq<Location>, path: Path): seq<Location> {
    if references == [] then []
    else
      var front, last := references[..|references| - 1], references[|references| - 1];
      if last.path == path then LocationsAt(front, path) + [last] else LocationsAt(front, path)
  }

  /** Splitting into runs loses nothing: `to_fact` after `from_fact` is the fact. */
  lemma {:induction false} FlattenRunsOf(references: seq<Location>)
    ensures FlattenRuns(RunsOf(references)) == references
  {
    if references != [] {
      var front, last := references[..|references| - 1], references[|references| - 1];
      FlattenRunsOf(front);
      var runs := RunsOf(front);
      AddReferenceFlat(runs, last);
      assert references == front + [last];
    }
  }

  lemma AddReferenceFlat(runs: seq<Row<seq<Location>>>, location: Location)
    ensures FlattenRuns(AddReference(runs, location)) == FlattenRuns(runs) + [location]
  {
    var next := AddReference(runs, location);
    if runs != [] && runs[|runs| - 1].key == location.path {
      assert next[..|next| - 1] == runs[..|runs| - 1];
    } else {
      assert next[..|next| - 1] == runs;
    }
  }

  /** Path-ordered references split into one valid run a path. */
  lemma {:induction false} RunsOfValid(references: seq<Location>)
    requires PathOrdered(references)
    ensures RunsValid(RunsOf(references))
    ensures references != [] ==> RunsOf(references) != []
    ensures references != [] ==> RunsOf(references)[|RunsOf(references)| - 1].key == references[|references| - 1].path
  {
    hide Less;
    if references != [] {
      var front, last := references[..|references| - 1], references[|references| - 1];
      RunsOfValid(front);
      var runs := RunsOf(front);
      if runs != [] && runs[|runs| - 1].key != last.path {
        assert AtMost(references[|references| - 2].path, last.path);
        SortedAppend(runs, Row(last.path, [last]));
      }
    }
  }

  lemma RunsSnoc(references: seq<Location>, next: Location)
    ensures RunsOf(references + [next]) == AddReference(RunsOf(references), next)
  {
    hide AddReference;
    assert (references + [next])[..|references + [next]| - 1] == references;
  }

  lemma ExtendLast(runs: seq<Row<seq<Location>>>, path: Path, locations: seq<Location>, next: Location)
    requires next.path == path
    ensures AddReference(runs + [Row(path, locations)], next) == runs + [Row(path, locations + [next])]
  {
  }

  lemma StartRun(runs: seq<Row<seq<Location>>>, next: Location)
    requires runs != [] ==> runs[|runs| - 1].key != next.path
    ensures AddReference(runs, next) == runs + [Row(next.path, [next])]
  {
  }

  /** Valid runs are determined by their flat list: `from_fact` after `to_fact` is the symbol. */
  lemma {:induction false} RunsOfFlatten(runs: seq<Row<seq<Location>>>)
    requires RunsValid(runs)
    ensures RunsOf(FlattenRuns(runs)) == runs
  {
    hide Less, RunsOf;
    if runs == [] {
      RunsOfNone();
    } else {
      var front, last := runs[..|runs| - 1], runs[|runs| - 1];
      RunsOfFlatten(front);
      if front != [] { LastDiffers(runs); }
      RunAppended(FlattenRuns(front), front, last, |last.value|);
      assert last.value[..|last.value|] == last.value;
      assert runs == front + [last];
    }
  }

  lemma RunsOfNone()
    ensures RunsOf([]) == []
  {
  }

  lemma LastDiffers<V>(rows: seq<Row<V>>)
    requires Sorted(rows) && |rows| > 1
    ensures rows[|rows| - 2].key != rows[|rows| - 1].key
  {
    hide Less;
    LessIrreflexive(rows[|rows| - 1].key);
  }

  lemma {:induction false} RunAppended(references: seq<Location>, front: seq<Row<seq<Location>>>, last: Row<seq<Location>>, n: nat)
    requires RunsOf(references) == front && RunValid(last) && 0 < n <= |last.value|
    requires front != [] ==> front[|front| - 1].key != last.key
    ensures RunsOf(references + last.value[..n]) == front + [Row(last.key, last.value[..n])]
    decreases n
  {
    hide RunsOf, AddReference;
    var x := last.value[n - 1];
    assert last.value[..n] == last.value[..n - 1] + [x];
    assert references + last.value[..n] == references + last.value[..n - 1] + [x];
    RunsSnoc(references + last.value[..n - 1], x);
    if n > 1 {
      RunAppended(references, front, last, n - 1);
      ExtendLast(front, last.key, last.value[..n - 1], x);
    } else {
      assert references + last.value[..0] == references;
      assert last.value[..1] == [x] && x.path == last.key;
      StartRun(front, x);
    }
  }

  lemma {:induction false} LocationsAtConcat(left: seq<Location>, right: seq<Location>, path: Path)
    ensures LocationsAt(left + right, path) == LocationsAt(left, path) + LocationsAt(right, path)
  {
    if right == [] {
      assert left + right == left;
    } else {
      assert (left + right)[..|left + right| - 1] == left + right[..|right| - 1];
      LocationsAtConcat(left, right[..|right| - 1], path);
    }
  }

  lemma {:induction false} LocationsAtRun(locations: seq<Location>, key: Path, path: Path)
    requires forall k :: 0 <= k < |locations| ==> locations[k].path == key
    ensures LocationsAt(locations, path) == if key == path then locations else []
  {
    if locations != [] {
      LocationsAtRun(locations[..|locations| - 1], key, path);
      assert locations == locations[..|locations| - 1] + [locations[|locations| - 1]];
    }
  }

  function RunAt(runs: seq<Row<seq<Location>>>, path: Path): seq<Location> {
    match Find(runs, path)
    case None => []
    case Some(run) => run
  }

  /** A path's run is exactly the references at that path. */
  lemma {:induction false} RunAtIsFilter(runs: seq<Row<seq<Location>>>, path: Path)
    requires RunsValid(runs)
    ensures LocationsAt(FlattenRuns(runs), path) == RunAt(runs, path)
  {
    hide Less, Find;
    if runs == [] {
      FindEmpty<seq<Location>>();
    } else {
      var front, last := runs[..|runs| - 1], runs[|runs| - 1];
      RunAtIsFilter(front, path);
      assert runs == front + [last];
      FindAppend(front, last, path);
      LocationsAtConcat(FlattenRuns(front), last.value, path);
      LocationsAtRun(last.value, last.key, path);
      if path == last.key {
        TotalOrder();
        BelowAbsent(front, path);
      }
    }
  }

  // --- stored symbols ---

  datatype StoredSymbol = StoredSymbol(
    aliasTarget: SymbolID, declarations: seq<Declaration>, references: PackedIndex<seq<Location>>, referenceCount: nat)

  /** What a stored symbol says, whatever the shape of its leaves. */
  datatype SymbolView = SymbolView(aliasTarget: SymbolID, declarations: seq<Declaration>, runs: seq<Row<seq<Location>>>)

  function View(symbol: StoredSymbol): SymbolView {
    SymbolView(symbol.aliasTarget, symbol.declarations, Rows(symbol.references))
  }

  function RunLength(run: seq<Location>): nat { |run| }

  ghost predicate StoredValid(symbol: StoredSymbol) {
    && Valid(symbol.references)
    && RunsValid(Rows(symbol.references))
    && symbol.referenceCount == Total(RunLength, Rows(symbol.references))
  }

  function ViewOf(body: SymbolBody): SymbolView {
    SymbolView(body.aliasTarget, body.declarations, RunsOf(body.references))
  }

  /** `from_fact`: one pass that closes a run where the path changes. */
  method FromFact(body: SymbolBody) returns (symbol: StoredSymbol)
    requires PathOrdered(body.references)
    ensures StoredValid(symbol) && View(symbol) == ViewOf(body)
  {
    hide *;
    var references := body.references;
    var runs: seq<Row<seq<Location>>> := [];
    var i := 0;
    RunsOfNone();
    assert references[..0] == [];
    while i < |references|
      invariant i <= |references| && runs == RunsOf(references[..i])
      invariant i < |references| && runs != [] ==> runs[|runs| - 1].key != references[i].path
    {
      var path := references[i].path;
      var locations := [references[i]];
      RunsNext(references, i);
      StartRun(runs, references[i]);
      i := i + 1;
      while i < |references| && references[i].path == path
        invariant i <= |references| && runs + [Row(path, locations)] == RunsOf(references[..i])
      {
        RunsNext(references, i);
        ExtendLast(runs, path, locations, references[i]);
        locations := locations + [references[i]];
        i := i + 1;
      }
      runs := runs + [Row(path, locations)];
    }
    assert references[..i] == references;
    RunsOfValid(references);
    RunsTotal(references);
    RunsValidSorted(runs);
    var index := FromSorted(runs);
    symbol := StoredSymbol(body.aliasTarget, body.declarations, index, |references|);
    StoredFromRuns(body, symbol);
  }

  lemma RunsValidSorted(runs: seq<Row<seq<Location>>>)
    requires RunsValid(runs)
    ensures Sorted(runs)
  {
  }

  lemma StoredFromRuns(body: SymbolBody, symbol: StoredSymbol)
    requires Valid(symbol.references) && Rows(symbol.references) == RunsOf(body.references) && RunsValid(RunsOf(body.references))
    requires symbol.referenceCount == Total(RunLength, RunsOf(body.references))
    requires symbol.aliasTarget == body.aliasTarget && symbol.declarations == body.declarations
    ensures StoredValid(symbol) && View(symbol) == ViewOf(body)
  {
    hide Valid, Rows, RunsOf, RunsValid, Total;
  }

  lemma RunsNext(references: seq<Location>, i: nat)
    requires i < |references|
    ensures RunsOf(references[..i + 1]) == AddReference(RunsOf(references[..i]), references[i])
  {
    hide RunsOf, AddReference;
    RunsSnoc(references[..i], references[i]);
    assert references[..i + 1] == references[..i] + [references[i]];
  }

  lemma {:induction false} RunsTotal(references: seq<Location>)
    ensures Total(RunLength, RunsOf(references)) == |references|
  {
    if references != [] {
      var front, last := references[..|references| - 1], references[|references| - 1];
      RunsTotal(front);
      var runs := RunsOf(front);
      if runs != [] && runs[|runs| - 1].key == last.path {
        var initial, final := runs[..|runs| - 1], runs[|runs| - 1];
        assert runs == initial + [final];
        assert RunsOf(references) == initial + [Row(last.path, final.value + [last])];
        TotalConcat(RunLength, initial, [final]);
        TotalConcat(RunLength, initial, [Row(last.path, final.value + [last])]);
      } else {
        TotalConcat(RunLength, runs, [Row(last.path, [last])]);
      }
    }
  }

  function RunOrNone(references: seq<Location>): Option<seq<Location>> {
    if references == [] then None else Some(references)
  }

  /** `replace_reference_path`: one run changes and the count follows it, never below zero. */
  method ReplaceReferencePath(symbol: StoredSymbol, path: Path, references: seq<Location>) returns (next: StoredSymbol)
    requires StoredValid(symbol) && (forall k :: 0 <= k < |references| ==> references[k].path == path)
    ensures StoredValid(next)
    ensures View(next) == View(symbol).(runs := Change(View(symbol).runs, path, RunOrNone(references)))
  {
    hide Valid, Rows, RunsValid, Total, Change, Find;
    StoredParts(symbol);
    var existing := Get(symbol.references, path);
    var priorLength := Weight(RunLength, existing);
    var replacement := RunOrNone(references);
    TotalChange(RunLength, Rows(symbol.references), path, replacement);
    RunsValidChange(Rows(symbol.references), path, references);
    var index := Updated(symbol.references, path, replacement);
    next := StoredSymbol(
      symbol.aliasTarget, symbol.declarations, index, symbol.referenceCount - priorLength + |references|);
  }

  lemma StoredParts(symbol: StoredSymbol)
    requires StoredValid(symbol)
    ensures Sorted(Rows(symbol.references))
  {
  }

  lemma RunsValidChange(runs: seq<Row<seq<Location>>>, path: Path, references: seq<Location>)
    requires RunsValid(runs) && (forall k :: 0 <= k < |references| ==> references[k].path == path)
    ensures RunsValid(Change(runs, path, RunOrNone(references)))
  {
    hide Less, Find, LowerIndex;
    var value := RunOrNone(references);
    ChangeMeaning(runs, path, value);
    var next := Change(runs, path, value);
    hide Change;
    forall i | 0 <= i < |next| ensures RunValid(next[i]) {
      FindAt(next, i);
      if next[i].key != path {
        var at := FindWitness(runs, next[i].key);
        assert RunValid(runs[at]);
      }
    }
  }

  /** Replacing one path's run replaces exactly that path's references in the fact. */
  lemma ReplacedReferences(runs: seq<Row<seq<Location>>>, path: Path, references: seq<Location>, other: Path)
    requires RunsValid(runs) && (forall k :: 0 <= k < |references| ==> references[k].path == path)
    ensures LocationsAt(FlattenRuns(Change(runs, path, RunOrNone(references))), other)
         == if other == path then references else LocationsAt(FlattenRuns(runs), other)
  {
    hide Less, Find, Change, Sorted, LocationsAt, FlattenRuns;
    RunsValidChange(runs, path, references);
    ChangeMeaning(runs, path, RunOrNone(references));
    RunAtIsFilter(runs, other);
    RunAtIsFilter(Change(runs, path, RunOrNone(references)), other);
  }

  // --- symbol operations ---

  datatype SymbolEdit =
    | ReplaceSymbol(body: SymbolBody)
    | RemoveSymbol
    | ReplacePath(path: Path, references: seq<Location>)

  /** The decoder's canonical-order guarantees on one operation. */
  ghost predicate EditValid(edit: SymbolEdit) {
    match edit
    case ReplaceSymbol(body) => PathOrdered(body.references)
    case RemoveSymbol => true
    case ReplacePath(path, references) => forall k :: 0 <= k < |references| ==> references[k].path == path
  }

  function SymbolStep(symbol: Option<SymbolView>, edit: SymbolEdit): Option<SymbolView> {
    match edit
    case ReplaceSymbol(body) => Some(ViewOf(body))
    case RemoveSymbol => None
    case ReplacePath(path, references) =>
      if symbol.None? then None
      else Some(symbol.value.(runs := Change(symbol.value.runs, path, RunOrNone(references))))
  }

  /** A reference operation may only name a present symbol that is no alias. */
  predicate StepAccepted(symbol: Option<SymbolView>, edit: SymbolEdit) {
    edit.ReplacePath? ==> symbol.Some? && symbol.value.aliasTarget == ""
  }

  ghost predicate Accepted(rows: seq<Row<SymbolView>>, ops: seq<Row<SymbolEdit>>) {
    forall i :: 0 <= i < |ops| ==>
      StepAccepted(FoldKey(SymbolStep, Find(rows, ops[i].key), ops[..i], ops[i].key), ops[i].value)
  }

  /** Operations sorted by ID, several on one ID side by side. */
  ghost predicate GroupedByID(ops: seq<Row<SymbolEdit>>) {
    forall i, j :: 0 <= i < j < |ops| ==> AtMost(ops[i].key, ops[j].key)
  }

  ghost predicate ValidSymbols(symbols: PackedIndex<StoredSymbol>) {
    Valid(symbols) && (forall i :: 0 <= i < |Rows(symbols)| ==> StoredValid(Rows(symbols)[i].value))
  }

  ghost predicate AllStored(rows: seq<Row<StoredSymbol>>) {
    forall i :: 0 <= i < |rows| ==> StoredValid(rows[i].value)
  }

  /** The rows of the symbol index as facts. */
  function Viewed(rows: seq<Row<StoredSymbol>>): seq<Row<SymbolView>> {
    MapRows(View, rows)
  }

  /** `apply_one_symbol`: a reference operation never meets a missing symbol. */
  method ApplyOneSymbol(symbol: Option<StoredSymbol>, edit: SymbolEdit) returns (next: Option<StoredSymbol>)
    requires symbol.Some? ==> StoredValid(symbol.value)
    requires EditValid(edit) && StepAccepted(MapOption(View, symbol), edit)
    ensures next.Some? ==> StoredValid(next.value)
    ensures MapOption(View, next) == SymbolStep(MapOption(View, symbol), edit)
  {
    hide StoredValid, ViewOf, Rows, Change;
    match edit {
      case ReplaceSymbol(body) =>
        var stored := FromFact(body);
        next := Some(stored);
      case RemoveSymbol =>
        next := None;
      case ReplacePath(path, references) =>
        var stored := ReplaceReferencePath(symbol.value, path, references);
        next := Some(stored);
    }
  }
}
