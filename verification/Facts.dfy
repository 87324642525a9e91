/** The rows a Type Facts table carries, reduced to representative fields. */
module Facts {
  import opened SortedRows

  type byte = x: int | 0 <= x < 256 witness 0

  /** A source digest: 32 raw bytes on the wire. */
  type Digest = seq<byte>

  type Path = string

  /** The empty ID is the absent symbol. */
  type SymbolID = string

  datatype Location = Location(path: Path, startByte: int, endByte: int)

  datatype Declaration = Declaration(name: string, kind: string, location: Location)

  datatype TypeDescriptor = TypeDescriptor(text: string, originModule: string, aliasDeclarations: seq<Declaration>)

  datatype Callability = Callable | NonCallable | Mixed | Unknown | UntypedCallable

  datatype RuntimeValueDomain = RuntimeValueDomain(callable: bool, undefined: bool, other: bool, unknown: bool)

  /** `elementZero` is kept total; the producer's empty value reads as `Unknown`. */
  datatype TupleShape = TupleShape(
    fixedLength: int, hasRest: bool, elementZero: Callability, minimumParameters: int, exactLength: Option<int>)

  /** `libraryTypes` is a list or absent; the producer never makes an empty list
  (internal/typefacts/tsgo/library_types.go:36-38), so the empty one stands for absence. */
  datatype EntityFact = EntityFact(
    location: Location,
    symbol: SymbolID,
    symbolUnresolved: bool,
    typeDescriptor: Option<TypeDescriptor>,
    callability: Option<Callability>,
    runtimeIdentity: string,
    runtimeValueDomain: Option<RuntimeValueDomain>,
    callResultDomain: Option<RuntimeValueDomain>,
    tupleShape: Option<TupleShape>,
    libraryTypes: seq<string>)

  function BareEntity(location: Location): EntityFact {
    EntityFact(location, "", false, None, None, "", None, None, None, [])
  }

  datatype AsyncFunctionFact = AsyncFunctionFact(
    expression: Location, symbol: SymbolID, target: SymbolID, canReturnAsync: bool, callsAfterAwait: seq<Location>)

  datatype FileFact = FileFact(path: Path, asyncFunctions: seq<AsyncFunctionFact>)

  /** A symbol fact; its ID is the key of the row that holds it. */
  datatype SymbolBody = SymbolBody(aliasTarget: SymbolID, declarations: seq<Declaration>, references: seq<Location>)

  /** One demanded entity. Only the flags the retained engine itself reads are kept apart. */
  datatype EntityDemand = EntityDemand(
    location: Location, query: Option<Location>,
    symbol: bool, references: bool, typeDescriptor: bool, async: bool, structuralAccessor: bool,
    others: seq<bool>)

  /** Durable identities hash a declaration; every other non-empty identity is
  scoped to the generation that minted it. */
  predicate DurableSymbolID(id: SymbolID) {
    id == "" || "symbol:h:" <= id
  }
}
