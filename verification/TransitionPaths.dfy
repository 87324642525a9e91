/** Planning the path operations of a transition
(internal/typefacts/wire_transition_diff.go, internal/typefacts/wire_transition.go).

A table keeps three independently ordered streams. A cursor merge-walks them; the
fallback plan merge-walks two cursors; the exact plan looks only at the manifest. */
module TransitionPaths {
  import opened Order
  import opened SortedRows
  import opened Facts
  import opened PathTable
  import opened KeyedEdits
  import opened RetainedPaths

  datatype Streams = Streams(sources: seq<Row<Digest>>, entities: seq<Row<seq<EntityFact>>>, files: seq<Row<FileFact>>)

  /** Canonical streams: strictly ordered, no empty entity run. */
  ghost predicate Canonical(table: Streams) {
    && Sorted(table.sources) && Sorted(table.entities) && Sorted(table.files)
    && (forall i :: 0 <= i < |table.entities| ==> table.entities[i].value != [])
  }

  function RunOr(run: Option<seq<EntityFact>>): seq<EntityFact> {
    match run
    case None => []
    case Some(entities) => entities
  }

  /** `wireTransitionPathRowsAt`. */
  function RowsOf(table: Streams, path: Path): PathRows {
    PathRows(Find(table.sources, path), RunOr(Find(table.entities, path)), Find(table.files, path))
  }

  function Drop1<V>(rows: seq<Row<V>>, path: Path): seq<Row<V>> {
    if rows != [] && rows[0].key == path then rows[1..] else rows
  }

  function Head<V>(rows: seq<Row<V>>, path: Path): Option<V> {
    if rows != [] && rows[0].key == path then Some(rows[0].value) else None
  }

  /** The smallest head of the three streams. */
  function LeastPath(table: Streams): Option<Path> {
    Least(Least(FirstPath(table.sources), FirstPath(table.entities)), FirstPath(table.files))
  }

  function FirstPath<V>(rows: seq<Row<V>>): Option<Path> {
    if rows == [] then None else Some(rows[0].key)
  }

  function Least(a: Option<Path>, b: Option<Path>): Option<Path> {
    if a.None? then b else if b.None? then a else if Less(b.value, a.value) then b else a
  }

  function Advance(table: Streams, path: Path): Streams {
    Streams(Drop1(table.sources, path), Drop1(table.entities, path), Drop1(table.files, path))
  }

  function HeadRows(table: Streams, path: Path): PathRows {
    PathRows(Head(table.sources, path), RunOr(Head(table.entities, path)), Head(table.files, path))
  }

  function StreamSize(table: Streams): nat {
    |table.sources| + |table.entities| + |table.files|
  }

  lemma LeastIsHead(table: Streams)
    requires LeastPath(table).Some?
    ensures StreamSize(Advance(table, LeastPath(table).value)) < StreamSize(table)
  {
    hide Less;
  }

  /** The merged rows of the three streams. */
  function Merged(table: Streams): seq<Row<PathRows>>
    decreases StreamSize(table)
  {
    if LeastPath(table).None? then []
    else
      var path := LeastPath(table).value;
      LeastIsHead(table);
      [Row(path, HeadRows(table, path))] + Merged(Advance(table, path))
  }

  ghost predicate NoneBelow<V>(rows: seq<Row<V>>, path: Path) {
    forall i :: 0 <= i < |rows| ==> !Less(rows[i].key, path)
  }

  lemma LeastBelowAll<V>(rows: seq<Row<V>>, path: Path)
    requires Sorted(rows) && (rows != [] ==> !Less(rows[0].key, path))
    ensures NoneBelow(rows, path)
    ensures Find(rows, path) == Head(rows, path)
    ensures Sorted(Drop1(rows, path))
    ensures forall other :: Find(Drop1(rows, path), other) == if other == path then None else Find(rows, other)
    ensures forall i :: 0 <= i < |Drop1(rows, path)| ==> Less(path, Drop1(rows, path)[i].key)
  {
    hide Less;
    TotalOrder();
    if rows == [] {
      FindEmpty<V>();
    } else {
      FindByHead(rows);
      if rows[0].key != path {
        FindAbsent(rows, path);
        forall i | 0 <= i < |rows| ensures Less(path, rows[i].key) {
          if i > 0 { assert Less(rows[0].key, rows[i].key); }
        }
        assert !HasKey(rows, path);
      }
    }
  }

  lemma FindByHead<V>(rows: seq<Row<V>>)
    requires Sorted(rows) && rows != []
    ensures Find(rows, rows[0].key) == Some(rows[0].value)
    ensures forall other :: Find(rows[1..], other) == if other == rows[0].key then None else Find(rows, other)
  {
    HeadAbsent(rows);
  }

  lemma LeastOfHeads(table: Streams)
    requires LeastPath(table).Some?
    ensures var path := LeastPath(table).value;
      && (table.sources != [] ==> !Less(table.sources[0].key, path))
      && (table.entities != [] ==> !Less(table.entities[0].key, path))
      && (table.files != [] ==> !Less(table.files[0].key, path))
  {
    hide Less;
    TotalOrder();
  }

  /** The merge is canonical: strictly ordered, one entry for each path with rows. */
  lemma {:induction false} MergedMeaning(table: Streams)
    requires Canonical(table)
    ensures Sorted(Merged(table))
    ensures forall path :: Find(Merged(table), path) == EntryOf(RowsOf(table, path))
    decreases StreamSize(table)
  {
    hide Less, Find, Sorted, Drop1, Head;
    if LeastPath(table).None? {
      NothingMerged(table);
    } else {
      var path := LeastPath(table).value;
      LeastIsHead(table);
      LeastOfHeads(table);
      LeastBelowAll(table.sources, path);
      LeastBelowAll(table.entities, path);
      LeastBelowAll(table.files, path);
      var rest := Advance(table, path);
      RestCanonical(table, path);
      MergedMeaning(rest);
      HeadNonEmpty(table, path);
      forall other | Find(Merged(rest), other).Some? ensures Less(path, other) {
        RestAbove(rest, path, other);
      }
      PrependRow(Row(path, HeadRows(table, path)), Merged(rest));
    }
  }

  lemma NothingMerged(table: Streams)
    requires LeastPath(table).None?
    ensures Merged(table) == [] && Sorted<PathRows>([])
    ensures forall path :: Find(Merged(table), path) == EntryOf(RowsOf(table, path))
  {
    hide Less;
    assert table.sources == [] && table.entities == [] && table.files == [];
  }

  lemma RestCanonical(table: Streams, path: Path)
    requires Canonical(table)
    requires Sorted(Drop1(table.sources, path)) && Sorted(Drop1(table.entities, path)) && Sorted(Drop1(table.files, path))
    ensures Canonical(Advance(table, path))
  {
    hide Less, Sorted;
  }

  lemma HeadNonEmpty(table: Streams, path: Path)
    requires Canonical(table) && LeastPath(table) == Some(path)
    ensures !HeadRows(table, path).IsEmpty()
  {
    hide Less, Sorted;
  }

  lemma RestAbove(rest: Streams, path: Path, other: Path)
    requires Canonical(rest) && Find(Merged(rest), other) == EntryOf(RowsOf(rest, other)) && Find(Merged(rest), other).Some?
    requires forall i :: 0 <= i < |rest.sources| ==> Less(path, rest.sources[i].key)
    requires forall i :: 0 <= i < |rest.entities| ==> Less(path, rest.entities[i].key)
    requires forall i :: 0 <= i < |rest.files| ==> Less(path, rest.files[i].key)
    ensures Less(path, other)
  {
    hide Less, Find, Merged;
    if Find(rest.sources, other).Some? {
      var i := FindWitness(rest.sources, other);
    } else if Find(rest.entities, other).Some? {
      var i := FindWitness(rest.entities, other);
    } else {
      var i := FindWitness(rest.files, other);
    }
  }

  lemma PrependRow<V>(row: Row<V>, rest: seq<Row<V>>)
    requires Sorted(rest) && forall other :: Find(rest, other).Some? ==> Less(row.key, other)
    ensures Sorted([row] + rest)
    ensures forall key :: Find([row] + rest, key) == if key == row.key then Some(row.value) else Find(rest, key)
  {
    hide Less, Find;
    forall i | 0 <= i < |rest| ensures Less(row.key, rest[i].key) { FindAt(rest, i); }
    forall key ensures Find([row] + rest, key) == if key == row.key then Some(row.value) else Find(rest, key) { FindHead(row, rest, key); }
  }

  /** The cursor over one table: three indexes, advanced together where their paths agree. */
  class PathCursor {
    const table: Streams
    var source: nat
    var entity: nat
    var file: nat

    constructor (t: Streams)
      ensures table == t && Within() && Rest() == t
    {
      table, source, entity, file := t, 0, 0, 0;
      new;
      assert t.sources[0..] == t.sources && t.entities[0..] == t.entities && t.files[0..] == t.files;
    }

    ghost predicate Within()
      reads this
    {
      source <= |table.sources| && entity <= |table.entities| && file <= |table.files|
    }

    ghost function Rest(): Streams
      requires Within()
      reads this
    {
      Streams(table.sources[source..], table.entities[entity..], table.files[file..])
    }

    method Valid() returns (valid: bool)
      requires Within()
      ensures valid <==> Merged(Rest()) != []
    {
      hide Less, Find;
      valid := source < |table.sources| || entity < |table.entities| || file < |table.files|;
    }

    method CurrentPath() returns (path: Path)
      requires Within() && Merged(Rest()) != []
      ensures LeastPath(Rest()) == Some(path)
    {
      hide Less, Find, HeadRows, Advance;
      var least: Option<Path> := None;
      if source < |table.sources| { least := Least(least, Some(table.sources[source].key)); }
      if entity < |table.entities| { least := Least(least, Some(table.entities[entity].key)); }
      if file < |table.files| { least := Least(least, Some(table.files[file].key)); }
      path := least.value;
    }

    method Rows() returns (row: Row<PathRows>)
      requires Within() && Merged(Rest()) != []
      ensures row == Merged(Rest())[0]
    {
      hide Less, Find;
      var path := CurrentPath();
      var digest: Option<Digest> := None;
      var run: seq<EntityFact> := [];
      var fact: Option<FileFact> := None;
      if source < |table.sources| && table.sources[source].key == path { digest := Some(table.sources[source].value); }
      if entity < |table.entities| && table.entities[entity].key == path { run := table.entities[entity].value; }
      if file < |table.files| && table.files[file].key == path { fact := Some(table.files[file].value); }
      row := Row(path, PathRows(digest, run, fact));
    }

    method Next()
      requires Within() && Merged(Rest()) != []
      modifies this
      ensures Within() && Merged(Rest()) == old(Merged(Rest()))[1..]
    {
      hide Less, Find, Least;
      ghost var before := Rest();
      var path := CurrentPath();
      if source < |table.sources| && table.sources[source].key == path { source := source + 1; }
      if entity < |table.entities| && table.entities[entity].key == path { entity := entity + 1; }
      if file < |table.files| && table.files[file].key == path { file := file + 1; }
      assert Rest() == Advance(before, path);
      LeastIsHead(before);
    }
  }
}
