/** The retained session engine: producer closure and session state machine, and the
client that mirrors its table (internal/typefacts/semantic_retained.go, closure.go,
semantic_demand.go, session.go, crates/typefacts/src/session.rs).

The module says, on values, what each step computes. `DemandClosure` holds the same
steps as the source writes them, loop by loop, and ties each to a function here. */
module Engine {
  import opened SortedRows
  import opened Order
  import opened Facts
  import opened PathTable
  import opened Contributions
  import opened Oracles

  /** The table one materialisation hands to the wire. `manifest` names the paths whose
  rows may differ from the preceding table, when that is known exactly. */
  datatype Table = Table(
    generation: nat,
    sources: map<Path, Digest>,
    entities: map<Path, seq<EntityFact>>,
    files: map<Path, FileFact>,
    manifest: Option<set<Path>>)

  datatype Closure = Closure(
    generation: nat,
    table: Option<Table>,
    previous: Option<Table>,
    changedPaths: Option<set<Path>>,
    retained: map<Path, Contribution>,
    lastSuppression: Option<set<SymbolID>>,
    asyncFiles: Option<map<Path, seq<AsyncFunctionFact>>>)

  function ResetClosure(c: Closure): Closure {
    Closure(c.generation, None, None, None, map[], None, None)
  }

  // --- one materialisation ---

  /** A group keeps its contribution when the exact changed paths spare it or its run is unchanged. */
  predicate Keeps(c: Closure, groups: Groups, path: Path) {
    && path in groups && path in c.retained
    && ((c.changedPaths.Some? && path !in c.changedPaths.value) || c.retained[path].demands == groups[path])
  }

  function Kept(c: Closure, groups: Groups): set<Path> {
    set path | path in groups && Keeps(c, groups, path)
  }

  function Recomputed(c: Closure, groups: Groups): set<Path> {
    groups.Keys - Kept(c, groups)
  }

  function KeptUnion(c: Closure, groups: Groups): set<SymbolID> {
    set path, symbol | path in Kept(c, groups) && path in c.retained && symbol in c.retained[path].structural :: symbol
  }

  /** The structural-accessor union a commit records: kept contributions' symbols and
  the durable symbols of the recomputed ones. */
  ghost function UnionOf(o: Oracle, c: Closure, groups: Groups): set<SymbolID> {
    KeptUnion(c, groups) + (set symbol | symbol in BatchStructural(o, groups, Recomputed(c, groups)) && DurableSymbolID(symbol))
  }

  /** Some descriptor symbol of the contribution changed its suppression status. */
  ghost predicate Flipped(contribution: Contribution, a: set<SymbolID>, b: set<SymbolID>) {
    !AgreeOn(contribution.descriptorSymbols, a, b)
  }

  /** Kept groups whose descriptors touch the difference of the two unions. */
  ghost function Refreshed(o: Oracle, c: Closure, groups: Groups): set<Path> {
    if c.lastSuppression.None? then {}
    else set path | path in Kept(c, groups) && path in c.retained
                    && Flipped(c.retained[path], UnionOf(o, c, groups), c.lastSuppression.value)
  }

  ghost function NextContribution(o: Oracle, c: Closure, groups: Groups, path: Path): Contribution
    requires path in groups
  {
    if path in Recomputed(c, groups) then
      Answered(o, path, groups[path], KeptUnion(c, groups) + BatchStructural(o, groups, Recomputed(c, groups)))
    else if path in Refreshed(o, c, groups) then
      Answered(o, path, groups[path], UnionOf(o, c, groups) + BatchStructural(o, groups, Refreshed(o, c, groups)))
    else c.retained[path]
  }

  ghost function AsyncAt(o: Oracle, c: Closure, groups: Groups, path: Path): seq<AsyncFunctionFact> {
    if path !in groups || AsyncRun(groups[path]) == [] then []
    else if c.asyncFiles.None? || c.changedPaths.None? || path in c.changedPaths.value || path !in c.asyncFiles.value
    then o.asyncFunctions(path, AsyncRun(groups[path]))
    else c.asyncFiles.value[path]
  }

  predicate DurableAsync(facts: seq<AsyncFunctionFact>) {
    forall fact :: fact in facts ==> DurableSymbolID(fact.symbol) && DurableSymbolID(fact.target)
  }

  ghost function NextAsyncFiles(o: Oracle, c: Closure, groups: Groups): Option<map<Path, seq<AsyncFunctionFact>>> {
    if forall path :: path in groups && AsyncRun(groups[path]) != [] ==> DurableAsync(AsyncAt(o, c, groups, path))
    then Some(map path | path in groups && AsyncRun(groups[path]) != [] :: AsyncAt(o, c, groups, path))
    else None
  }

  /** Every recomputed or refreshed group joins the changed paths in the manifest. */
  ghost function NextManifest(o: Oracle, c: Closure, groups: Groups): Option<set<Path>> {
    var moved := Recomputed(c, groups) + Refreshed(o, c, groups);
    if c.previous.None? then None
    else if moved != {} then Some((if c.changedPaths.Some? then c.changedPaths.value else {}) + moved)
    else c.changedPaths
  }

  ghost function NextTable(o: Oracle, c: Closure, groups: Groups): Table {
    Table(
      c.generation,
      o.sources,
      map path | path in groups && NextContribution(o, c, groups, path).entities != [] :: NextContribution(o, c, groups, path).entities,
      map path | path in o.sources :: FileFact(path, AsyncAt(o, c, groups, path)),
      NextManifest(o, c, groups))
  }

  ghost function NextRetained(o: Oracle, c: Closure, groups: Groups): map<Path, Contribution> {
    map path | path in groups && NextContribution(o, c, groups, path).durable :: NextContribution(o, c, groups, path)
  }

  /** A materialisation followed by the commit of its retained state. */
  ghost function Materialized(o: Oracle, c: Closure, groups: Groups): Closure {
    Closure(
      c.generation, Some(NextTable(o, c, groups)), None, None,
      NextRetained(o, c, groups), Some(UnionOf(o, c, groups)), NextAsyncFiles(o, c, groups))
  }

  /** `wireTransitionPathRowsAt`. */
  function RowsAt(table: Table, path: Path): PathRows {
    PathRows(
      if path in table.sources then Some(table.sources[path]) else None,
      if path in table.entities then table.entities[path] else [],
      if path in table.files then Some(table.files[path]) else None)
  }

  // --- session steps ---

  function WithoutRows(contribution: Contribution): Contribution {
    contribution.(entities := [], fullTier := [])
  }

  /** The producer keeps compact contributions once the wire owns the expanded rows. */
  function Released(c: Closure): Closure {
    c.(table := if c.table.Some? then Some(c.table.value.(sources := map[], entities := map[], files := map[])) else None,
       retained := map path | path in c.retained :: WithoutRows(c.retained[path]))
  }

  /** Paths an accepted update evicts: the named ones and the direct dependents of a named one. */
  function Evicted(c: Closure, invalid: set<Path>): set<Path> {
    invalid + (set path | path in c.retained && exists dependency :: dependency in c.retained[path].dependencies && dependency in invalid)
  }

  function Updated(c: Closure, invalid: set<Path>): Closure {
    var evicted := Evicted(c, invalid);
    c.(generation := c.generation + 1, table := None, previous := c.table,
       changedPaths := Some(evicted), retained := c.retained - evicted)
  }

  /** A demand change turns the current table into the predecessor and drops the named runs. */
  function BeginDemands(c: Closure, named: set<Path>): Closure {
    if named == {} then c
    else c.(
      table := None,
      previous := if c.table.Some? then c.table else c.previous,
      retained := c.retained - named,
      changedPaths := Some((if c.changedPaths.Some? then c.changedPaths.value else {}) + named))
  }

  /** A current table answers as it is; otherwise one is materialised. */
  ghost function Tabled(o: Oracle, c: Closure, groups: Groups): (next: Closure)
    ensures next.table.Some? && next.generation == c.generation
  {
    if c.table.Some? then c else Materialized(o, c, groups)
  }

  /** `header` is the generation of the last published table. */
  datatype Session = Session(closure: Closure, groups: Groups, token: nat, header: Option<nat>)

  datatype Request = Request(generation: nat, reset: bool, token: nat, changed: Groups, removed: set<Path>)

  datatype Transition =
    | Full(generation: nat, rows: map<Path, PathOp>)
    | Delta(generation: nat, baseGeneration: nat, baseToken: nat, rows: map<Path, PathOp>)

  datatype Response = Rejected | Failed | Reuse(token: nat) | Published(token: nat, transition: Transition)

  function Named(r: Request): set<Path> {
    r.changed.Keys + r.removed
  }

  function NextGroups(s: Session, r: Request): Groups {
    ((if r.reset then map[] else s.groups) + r.changed) - r.removed
  }

  function FullOps(table: Table): map<Path, PathOp> {
    map path | path in table.sources.Keys + table.entities.Keys + table.files.Keys
      :: RowsDifference(NoRows, RowsAt(table, path), true, true, true)
  }

  function SparseOps(table: Table, paths: set<Path>): map<Path, PathOp> {
    map path | path in paths :: SparseOp(RowsAt(table, path))
  }

  /** The request is answered from the session alone. */
  predicate Reuses(s: Session, r: Request) {
    !r.reset && Named(r) == {} && s.header == Some(s.closure.generation)
  }

  /** A delta is planned against the published table when there is one and the client did not reset. */
  predicate HasBase(s: Session, r: Request) {
    !r.reset && s.header.Some?
  }

  /** The closure an analyze that completes leaves behind, before the rows are released. */
  ghost function AnalyzedClosure(s: Session, o: Oracle, r: Request): Closure {
    var groups := NextGroups(s, r);
    var first := Tabled(o, BeginDemands(s.closure, Named(r)), groups);
    if HasBase(s, r) && first.table.value.manifest.None?
    then Tabled(o, BeginDemands(ResetClosure(first), Named(r)), groups) else first
  }

  ghost function AnalyzedTransition(s: Session, o: Oracle, r: Request): Transition {
    var groups := NextGroups(s, r);
    var first := Tabled(o, BeginDemands(s.closure, Named(r)), groups);
    var table := AnalyzedClosure(s, o, r).table.value;
    if HasBase(s, r) && first.table.value.manifest.Some?
    then Delta(table.generation, s.header.value, s.token, SparseOps(table, first.table.value.manifest.value))
    else Full(table.generation, FullOps(table))
  }

  /** One analyze request. `fails` stands for a backend error, an encoding error or a
  cancellation at any point after the demand transaction began. */
  ghost function Analyze(s: Session, o: Oracle, r: Request, fails: bool): (Session, Response) {
    if r.generation != s.closure.generation || (!r.reset && r.token != s.token) then (s, Rejected)
    else if Reuses(s, r) then (s, Reuse(s.token))
    else if fails then (s.(closure := ResetClosure(s.closure)), Failed)
    else (
      Session(Released(AnalyzedClosure(s, o, r)), NextGroups(s, r), s.token + 1, Some(s.closure.generation)),
      Published(s.token + 1, AnalyzedTransition(s, o, r)))
  }

  // --- the client ---

  datatype Client = Client(token: nat, generation: nat, rows: Option<map<Path, PathRows>>)

  function ClientAt(rows: map<Path, PathRows>, path: Path): PathRows {
    if path in rows then rows[path] else NoRows
  }

  /** Applying path operations to stored rows: entries left empty disappear. */
  function ApplyOps(rows: map<Path, PathRows>, ops: map<Path, PathOp>): map<Path, PathRows> {
    map path | path in rows.Keys + ops.Keys
      && (path in ops ==> ApplyEntry(ClientAt(rows, path), ops[path]).Some?)
      :: if path in ops then ApplyEntry(ClientAt(rows, path), ops[path]).value else rows[path]
  }

  /** `prepare_analyze_response` and the publication of its candidate. A delta whose base
  identity is not the retained one is refused and leaves the client as it was. */
  function Receive(client: Client, response: Response): Client {
    match response
    case Rejected => client
    case Failed => client
    case Reuse(_) => client
    case Published(token, Full(generation, rows)) => Client(token, generation, Some(ApplyOps(map[], rows)))
    case Published(token, Delta(generation, baseGeneration, baseToken, rows)) =>
      if client.rows.None? || client.generation != baseGeneration || client.token != baseToken then client
      else Client(token, generation, Some(ApplyOps(client.rows.value, rows)))
  }

  // --- the reference: full rematerialisation ---

  /** The rows a full rematerialisation of the groups over the program gives a path. */
  ghost function FullRows(o: Oracle, groups: Groups, path: Path): PathRows {
    PathRows(
      if path in o.sources then Some(o.sources[path]) else None,
      if path in groups then Answered(o, path, groups[path], BatchStructural(o, groups, groups.Keys)).entities else [],
      if path in o.sources then Some(FileFact(path, AsyncFacts(o, groups, path))) else None)
  }

  ghost predicate Mirrors(rows: map<Path, PathRows>, o: Oracle, groups: Groups) {
    forall path :: ClientAt(rows, path) == FullRows(o, groups, path)
  }

  /** Every retained contribution of a current group is what the program answers for
  that group under the recorded union, its rows released. */
  ghost predicate Retention(c: Closure, o: Oracle, groups: Groups) {
    forall path :: path in c.retained && path in groups ==>
      && c.retained[path].durable
      && c.lastSuppression.Some?
      && c.retained[path].demands == groups[path]
      && c.retained[path] == WithoutRows(Answered(o, path, groups[path], c.lastSuppression.value))
  }

  function Changed(c: Closure): set<Path> {
    if c.changedPaths.Some? then c.changedPaths.value else {}
  }

  /** Outside the changed paths the async cache answers for the current program and groups. */
  ghost predicate AsyncCurrent(c: Closure, o: Oracle, groups: Groups) {
    c.asyncFiles.Some? ==> (
      forall path :: path in c.asyncFiles.value && path !in Changed(c)
        ==> (path in groups && AsyncRun(groups[path]) != [] ==> c.asyncFiles.value[path] == AsyncFacts(o, groups, path)))
  }
}
