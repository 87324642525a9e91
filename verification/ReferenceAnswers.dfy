/** The reference lists the producer answers from its index (internal/typefacts/tsgo/references.go:117-168, 350-371):
one symbol's merged rows, under their paths. */
module ReferenceAnswers {
  import opened Order
  import opened Facts
  import opened RetainedSymbols
  import opened ReferenceRows
  import opened ReferenceStates

  function PathAt(paths: seq<Path>, k: nat): Path {
    if k < |paths| then paths[k] else ""
  }

  /** `locations`. */
  function Located(paths: seq<Path>, rows: seq<IndexedReference>): (list: seq<Location>)
    ensures |list| == |rows|
    ensures forall k :: 0 <= k < |rows| ==> list[k] == Location(PathAt(paths, rows[k].path), rows[k].start, rows[k].end)
  {
    seq(|rows|, (k: int) requires 0 <= k < |rows| => Location(PathAt(paths, rows[k].path), rows[k].start, rows[k].end))
  }

  function Placed(path: Path, spans: seq<Span>): (list: seq<Location>)
    ensures |list| == |spans|
    ensures forall k :: 0 <= k < |spans| ==> list[k] == Location(path, spans[k].start, spans[k].end)
  {
    seq(|spans|, (k: int) requires 0 <= k < |spans| => Location(path, spans[k].start, spans[k].end))
  }

  /** The list of one symbol, given what each path holds of it. */
  function ListAt(paths: seq<Path>, held: map<Path, Refs>, id: SymbolID): seq<Location> {
    Located(paths, Gather(Columns(paths, held, id)))
  }

  /** The list a fresh index would answer. */
  function TrueList(paths: seq<Path>, truth: Scans, id: SymbolID): seq<Location> {
    Located(paths, FreshRows(paths, truth, id))
  }

  lemma LocatedConcat(paths: seq<Path>, a: seq<IndexedReference>, b: seq<IndexedReference>)
    ensures Located(paths, a + b) == Located(paths, a) + Located(paths, b)
  {
  }

  lemma LocatedTag(paths: seq<Path>, k: nat, spans: seq<Span>)
    requires k < |paths|
    ensures Located(paths, Tag(k, spans)) == Placed(paths[k], spans)
  {
  }

  /** Distinct paths keep distinct rows apart. */
  lemma LocatedInjective(paths: seq<Path>, a: seq<IndexedReference>, b: seq<IndexedReference>)
    requires StrictlyOrdered(paths) && Located(paths, a) == Located(paths, b)
    requires forall row: IndexedReference :: row in a + b ==> row.path < |paths|
    ensures a == b
  {
    hide Less;
    TotalOrder();
    assert |a| == |b|;
    forall k | 0 <= k < |a| ensures a[k] == b[k] {
      assert a[k] in a + b && b[k] in a + b;
      assert Located(paths, a)[k] == Located(paths, b)[k];
    }
  }

  /** What the index answers is the program's list exactly when no file's spans are missing. */
  lemma AnswerWholeIff(s: IndexState, id: SymbolID)
    requires Formed(s) && Settled(s)
    ensures Located(s.paths, RowsFor(s.merged.value, id)) == ListAt(s.paths, s.held, id)
    ensures ListAt(s.paths, s.held, id) == TrueList(s.paths, s.truth, id) <==> HeldAll(s.held, s.truth, id)
  {
    ListedAt(s, id);
    FreshIs(s.paths, s.truth, id);
    RowsFreshIff(s, id);
    SettledPaths(s);
    hide Formed, FreshRows, RowsFor, Gather, HeldAll, Located, StrictlyOrdered;
    var mine, whole := RowsFor(s.merged.value, id), FreshRows(s.paths, s.truth, id);
    forall row: IndexedReference | row in mine + whole ensures row.path < |s.paths| {
      GatherMember(Columns(s.paths, s.held, id), row);
      GatherMember(Columns(s.paths, AllRefs(s.truth), id), row);
    }
    if Located(s.paths, mine) == Located(s.paths, whole) { LocatedInjective(s.paths, mine, whole); }
  }

  lemma AnswerAt(s: IndexState, id: SymbolID)
    requires Formed(s) && s.merged.Some?
    ensures Located(s.paths, RowsFor(s.merged.value, id)) == ListAt(s.paths, s.held, id)
  {
    ListedAt(s, id);
    hide Formed, Gather, Columns, Located, RowsFor;
  }

  // --- the answer at one path ---

  lemma {:induction false} GatherAt(paths: seq<Path>, columns: seq<seq<Span>>, path: Path)
    requires StrictlyOrdered(paths) && |columns| <= |paths|
    ensures forall k :: 0 <= k < |columns| && paths[k] == path ==> LocationsAt(Located(paths, Gather(columns)), path) == Placed(path, columns[k])
    ensures path !in paths[..|columns|] ==> LocationsAt(Located(paths, Gather(columns)), path) == []
  {
    hide LocationsAt, Placed, Tag, Located;
    if columns == [] {
      assert Gather(columns) == [];
      NothingAt(paths, path);
    } else {
      var n := |columns| - 1;
      var front := columns[..n];
      GatherAt(paths, front, path);
      LocatedConcat(paths, Gather(front), Tag(n, columns[n]));
      LocatedTag(paths, n, columns[n]);
      LocationsAtConcat(Located(paths, Gather(front)), Placed(paths[n], columns[n]), path);
      PlacedAt(paths[n], columns[n], path);
      OnlyOnce(paths, n);
      hide Gather, StrictlyOrdered;
      assert paths[..n + 1] == paths[..n] + [paths[n]];
    }
  }

  lemma NothingAt(paths: seq<Path>, path: Path)
    ensures LocationsAt(Located(paths, []), path) == []
  {
  }

  lemma PlacedAt(key: Path, spans: seq<Span>, path: Path)
    ensures LocationsAt(Placed(key, spans), path) == if key == path then Placed(key, spans) else []
  {
    LocationsAtRun(Placed(key, spans), key, path);
  }

  lemma OnlyOnce(paths: seq<Path>, n: nat)
    requires StrictlyOrdered(paths) && n < |paths|
    ensures paths[n] !in paths[..n]
  {
    hide Less;
    TotalOrder();
  }

  /** One path's part of an answer is what that path holds. */
  lemma ListAtPath(paths: seq<Path>, held: map<Path, Refs>, id: SymbolID, path: Path)
    requires StrictlyOrdered(paths)
    ensures LocationsAt(ListAt(paths, held, id), path) == Placed(path, if path in SetOf(paths) then HeldAt(held, path, id) else [])
  {
    var columns := Columns(paths, held, id);
    GatherAt(paths, columns, path);
    hide HeldAt, Gather, LocationsAt, Located, StrictlyOrdered;
    assert paths[..|columns|] == paths;
    if path in SetOf(paths) {
      var k :| 0 <= k < |paths| && paths[k] == path;
      assert columns[k] == HeldAt(held, path, id);
    }
  }

  lemma TrueListIs(paths: seq<Path>, truth: Scans, id: SymbolID)
    ensures TrueList(paths, truth, id) == ListAt(paths, AllRefs(truth), id)
  {
    hide Gather;
    FreshIs(paths, truth, id);
  }

  /** Answers are in path order. */
  lemma ListOrdered(paths: seq<Path>, held: map<Path, Refs>, id: SymbolID)
    requires StrictlyOrdered(paths)
    ensures PathOrdered(ListAt(paths, held, id))
  {
    hide Gather, Less, HeldAt;
    var rows := Gather(Columns(paths, held, id));
    RowsRise(Columns(paths, held, id));
    forall i, j | 0 <= i < j < |rows| ensures AtMost(PathAt(paths, rows[i].path), PathAt(paths, rows[j].path)) {
      GatherMember(Columns(paths, held, id), rows[i]);
      GatherMember(Columns(paths, held, id), rows[j]);
      assert rows[i].path <= rows[j].path;
    }
  }

  lemma {:induction false} RowsRise(columns: seq<seq<Span>>)
    ensures forall i, j :: 0 <= i < j < |Gather(columns)| ==> Gather(columns)[i].path <= Gather(columns)[j].path
  {
    if columns != [] {
      var n := |columns| - 1;
      RowsRise(columns[..n]);
      var front, last := Gather(columns[..n]), Tag(n, columns[n]);
      forall i | 0 <= i < |front| ensures front[i].path < n { GatherMember(columns[..n], front[i]); }
      assert Gather(columns) == front + last;
      hide Gather;
    }
  }
}
