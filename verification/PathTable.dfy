/** Path rows: what both sides of the protocol store per source path, and the
slot operations that move one path's rows from one table to the next. */
module PathTable {
  import opened SortedRows
  import opened Facts

  datatype SlotOp<+T> = Unchanged | Replace(value: T) | Remove

  datatype PathOp = PathOp(source: SlotOp<Digest>, entities: SlotOp<seq<EntityFact>>, file: SlotOp<FileFact>)

  datatype PathRows = PathRows(source: Option<Digest>, entities: seq<EntityFact>, file: Option<FileFact>) {
    predicate IsEmpty() {
      source.None? && entities == [] && file.None?
    }
  }

  const NoRows := PathRows(None, [], None)

  function RowsOrNone(entry: Option<PathRows>): PathRows {
    match entry
    case None => NoRows
    case Some(rows) => rows
  }

  function ApplyOptional<T>(slot: Option<T>, op: SlotOp<T>): Option<T> {
    match op
    case Unchanged => slot
    case Replace(value) => Some(value)
    case Remove => None
  }

  function ApplyRun<T>(run: seq<T>, op: SlotOp<seq<T>>): seq<T> {
    match op
    case Unchanged => run
    case Replace(value) => value
    case Remove => []
  }

  /** One path operation on one path's rows; an entry left without rows disappears. */
  function ApplyEntry(rows: PathRows, op: PathOp): Option<PathRows> {
    var next := PathRows(
      ApplyOptional(rows.source, op.source), ApplyRun(rows.entities, op.entities), ApplyOptional(rows.file, op.file));
    if next.IsEmpty() then None else Some(next)
  }

  function EntryOf(rows: PathRows): Option<PathRows> {
    if rows.IsEmpty() then None else Some(rows)
  }

  // --- planning one path ---

  function OptionalDifference<T(==)>(previous: Option<T>, next: Option<T>, candidate: bool): SlotOp<T> {
    if !candidate then Unchanged
    else if previous.Some? && next.None? then Remove
    else if next.Some? && previous != next then Replace(next.value)
    else Unchanged
  }

  function RunDifference<T(==)>(previous: seq<T>, next: seq<T>, candidate: bool): SlotOp<seq<T>> {
    if !candidate then Unchanged
    else if previous != [] && next == [] then Remove
    else if next != [] && previous != next then Replace(next)
    else Unchanged
  }

  /** The operation that turns `previous` into `next` on the candidate slots. */
  function RowsDifference(previous: PathRows, next: PathRows, source: bool, entity: bool, file: bool): PathOp {
    PathOp(
      OptionalDifference(previous.source, next.source, source),
      RunDifference(previous.entities, next.entities, entity),
      OptionalDifference(previous.file, next.file, file))
  }

  const NoOp := PathOp(Unchanged, Unchanged, Unchanged)

  /** The unconditional operation of the sparse plan: the base rows live with the
  client, so every named slot is replaced or removed outright. */
  function SparseOp(next: PathRows): PathOp {
    PathOp(
      if next.source.Some? then Replace(next.source.value) else Remove,
      if next.entities != [] then Replace(next.entities) else Remove,
      if next.file.Some? then Replace(next.file.value) else Remove)
  }

  /** A sparse operation lands on the target rows from any base rows. */
  lemma SparseOpLands(base: PathRows, next: PathRows)
    ensures ApplyEntry(base, SparseOp(next)) == EntryOf(next)
  {
  }

  /** A difference lands on the target rows exactly when its candidates cover every differing slot. */
  lemma DifferenceLands(previous: PathRows, next: PathRows, source: bool, entity: bool, file: bool)
    ensures (ApplyEntry(previous, RowsDifference(previous, next, source, entity, file)) == EntryOf(next))
      == ((source || previous.source == next.source)
          && (entity || previous.entities == next.entities)
          && (file || previous.file == next.file))
  {
  }

  /** With full candidates, no operation is planned exactly when nothing differs. */
  lemma DifferenceEmptyIffEqual(previous: PathRows, next: PathRows)
    ensures RowsDifference(previous, next, true, true, true) == NoOp <==> previous == next
  {
  }
}
