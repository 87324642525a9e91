/** The TypeScript checker as the retained engine sees it.

The checker is abstract: an `Oracle` answers demand runs, async demands and source
digests for one program. `Lawful` and `Moves` are the contract the producer relies on;
nothing else about the checker is assumed. */
module Oracles {
  import opened SortedRows
  import opened Order
  import opened Facts
  import opened Contributions

  type Run = seq<EntityDemand>

  type Groups = map<Path, Run>

  datatype Oracle = Oracle(
    sources: map<Path, Digest>,
    answer: (Path, Run, set<SymbolID>) -> RunResult,
    asyncFunctions: (Path, Run) -> seq<AsyncFunctionFact>)

  /** The contribution of one run resolved under a suppression set. */
  function Answered(o: Oracle, path: Path, run: Run, suppression: set<SymbolID>): Contribution {
    var result := o.answer(path, run, suppression);
    if |result.entities| == |run| then Prepared(run, result)
    else Contribution(run, [], [], [], [], [], false)
  }

  ghost predicate AgreeOn(symbols: seq<SymbolID>, a: set<SymbolID>, b: set<SymbolID>) {
    forall symbol :: symbol in symbols ==> (symbol in a <==> symbol in b)
  }

  /** Structural accessors and descriptor symbols do not depend on suppression; an
  answer depends on it only through the run's own descriptor symbols; a durable answer
  carries only durable identities. */
  ghost predicate Lawful(o: Oracle) {
    && (forall path, run, s, t ::
          && Answered(o, path, run, s).structural == Answered(o, path, run, t).structural
          && Answered(o, path, run, s).descriptorSymbols == Answered(o, path, run, t).descriptorSymbols)
    && (forall path, run, s, t ::
          AgreeOn(Answered(o, path, run, s).descriptorSymbols, s, t) ==> Answered(o, path, run, s) == Answered(o, path, run, t))
    && (forall path, run, s :: Answered(o, path, run, s).durable ==>
          && (forall symbol :: symbol in Answered(o, path, run, s).structural ==> DurableSymbolID(symbol))
          && (forall symbol :: symbol in Answered(o, path, run, s).descriptorSymbols ==> DurableSymbolID(symbol)))
  }

  ghost predicate Touches(dependencies: seq<Path>, paths: set<Path>) {
    exists path :: path in dependencies && path in paths
  }

  /** What an accepted update that names `invalid` may move: source and async facts of
  named paths, and the answers of runs on named paths, of runs depending on one, and of
  runs whose identities do not outlive a generation. */
  ghost predicate Moves(before: Oracle, after: Oracle, invalid: set<Path>) {
    && (forall path :: path !in invalid ==>
          && (path in before.sources <==> path in after.sources)
          && (path in before.sources ==> before.sources[path] == after.sources[path]))
    && (forall path, run :: path !in invalid ==> before.asyncFunctions(path, run) == after.asyncFunctions(path, run))
    && (forall path, run, s ::
          path !in invalid && Answered(before, path, run, s).durable && !Touches(Answered(before, path, run, s).dependencies, invalid)
          ==> Answered(after, path, run, s) == Answered(before, path, run, s))
  }

  // --- full rematerialisation: what an empty-handed producer would compute ---

  function Structural(o: Oracle, path: Path, run: Run): set<SymbolID> {
    SetOf(Answered(o, path, run, {}).structural)
  }

  /** The structural-accessor symbols of a batch of groups. */
  ghost function BatchStructural(o: Oracle, groups: Groups, batch: set<Path>): set<SymbolID> {
    set path, symbol | path in batch && path in groups && symbol in Structural(o, path, groups[path]) :: symbol
  }

  function AsyncRun(run: Run): Run {
    if run == [] then []
    else (if run[0].async then [run[0]] else []) + AsyncRun(run[1..])
  }

  ghost function AsyncFacts(o: Oracle, groups: Groups, path: Path): seq<AsyncFunctionFact> {
    if path in groups && AsyncRun(groups[path]) != [] then o.asyncFunctions(path, AsyncRun(groups[path])) else []
  }
}
