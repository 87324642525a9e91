/** From plan to retained rows: a transition is planned, encoded, decoded and applied
(internal/typefacts/wire_transition.go:91-309, crates/typefacts/src/v3.rs:1246-1484,
crates/typefacts/src/retained_table.rs). The table schema is one that loses no modelled field. */
module WireDeliveries {
  import opened Order
  import opened SortedRows
  import opened Facts
  import opened PathTable
  import opened KeyedEdits
  import opened PackedIndexes
  import opened Varints
  import opened PackedTokens
  import opened PackedDictionaries
  import opened PackedLocations
  import opened PackedEntities
  import opened PackedPathOps
  import opened PackedSymbolOps
  import opened PackedTransitions
  import opened PackedWriters
  import opened PackedRowWriters
  import opened DecodedTransitions
  import opened WireEncoders
  import opened RetainedPaths
  import opened RetainedSymbols
  import opened SymbolDeltas
  import opened TransitionPaths
  import opened TransitionPlans
  import opened TransitionSymbols
  import opened TransitionReferences
  import opened TransitionFitness
  import TransitionDeltas
  import Engine
  import Oracles
  import SessionRuns

  /** The first schema that carries every modelled field. */
  const WHOLE_SCHEMA := 15

  datatype Delivery = Silent | Lost | Received(transition: Transition)

  /** What the encoder does not check and the client does: a dictionary and two operation lists of at most a million. */
  ghost predicate WithinLimits(transition: Transition) {
    && (exists strings :: DictionaryOf(strings, transition) && |strings| <= PACKED_COLLECTION_LIMIT)
    && |transition.paths| <= PACKED_COLLECTION_LIMIT && |transition.symbols| <= PACKED_COLLECTION_LIMIT
  }

  /** Each list that the client would read is fit. */
  ghost predicate Fit(transition: Transition) {
    && (|transition.paths| <= PACKED_COLLECTION_LIMIT ==> PathOpsFit(transition.identity.mode, transition.paths))
    && (|transition.symbols| <= PACKED_COLLECTION_LIMIT ==> SymbolOpsFit(transition.identity.mode, transition.symbols))
  }

  /** Codable strings, and fewer than 2^64 of anything. */
  ghost predicate Carriable(transition: Transition) {
    && TextsCodable(transition) && |transition.paths| < U64_LIMIT && |transition.symbols| < U64_LIMIT
    && (forall strings :: DictionaryOf(strings, transition) ==> |strings| < U64_LIMIT)
  }

  ghost predicate Sendable(identity: Identity) {
    IdentityFits(identity) && identity.schema >= WHOLE_SCHEMA
  }

  lemma RunPasses(path: Path, entities: seq<EntityFact>)
    requires RunFits(path, entities)
    ensures RunWritable(path, entities)
  {
    forall k | 0 <= k < |entities| ensures EntityWritable(path, entities[k]) {
      assert EntityFits(path, entities[k]);
    }
  }

  lemma FitWritable(transition: Transition)
    requires TransitionFits(transition)
    ensures Writable(transition)
  {
    hide IdentityFits, Sorted, RunFits, RunWritable, AllAsyncPlaced, AllPlaced, BodyFits, LocationsCanonical, OpLess;
    var paths, symbols := transition.paths, transition.symbols;
    forall k | 0 <= k < |paths| ensures PathOpWritable(paths[k]) {
      assert PathOpFits(paths[k]);
      if paths[k].value.entities.Replace? { RunPasses(paths[k].key, paths[k].value.entities.value); }
    }
    forall k | 0 <= k < |symbols| ensures SymbolOpWritable(transition.identity.mode, symbols[k]) {
      assert EditFits(transition.identity.mode, symbols[k].value);
      if symbols[k].value.ReplacePath? { PlacedWritable(symbols[k].value.path, symbols[k].value.references); }
    }
  }

  lemma PlacedWritable(path: Path, references: seq<Location>)
    requires AllPlaced(references) && AllAt(path, references)
    ensures ReferencesWritable(path, references)
  {
    forall k | 0 <= k < |references| ensures references[k].path == path && LocationWritable(references[k]) {
      assert Placed(references[k]);
    }
  }

  lemma FitIdentity(identity: Identity)
    requires IdentityFits(identity)
    ensures Validated(identity) && Wide(identity)
  {
  }

  /** Encode, carry, decode: what arrives is what was sent, buffered or streamed, and it arrives exactly when it
  is within the limits. */
  method Deliver(transition: Transition, stream: Option<Stream>) returns (delivery: Delivery)
    requires Sendable(transition.identity) && Fit(transition)
    ensures delivery.Silent? <==> IsNothing(transition)
    ensures delivery.Received? ==> Formed(delivery.transition)
    ensures Carriable(transition) && delivery.Received? ==> WithinLimits(transition) && delivery.transition == transition
    ensures Carriable(transition) && WithinLimits(transition) && stream.None? && !IsNothing(transition) ==> delivery.Received?
  {
    hide *;
    SendableParts(transition);
    var encoder := new WireEncoder();
    var encoding;
    ghost var strings;
    encoding, strings := encoder.Encode(transition, stream);
    if encoding.Nothing? { return Silent; }
    if encoding.Refused? { return Lost; }
    var frame := encoding.Whole();
    Arrives(strings, transition, frame);
    var decoded := DecodeTransition(frame);
    if decoded.Bad? { return Lost; }
    DecodedFormed(frame);
    delivery := Received(decoded.value);
  }

  lemma SendableParts(transition: Transition)
    requires Sendable(transition.identity) && Fit(transition)
    ensures Validated(transition.identity) && Wide(transition.identity)
    ensures WithinLimits(transition) ==> TransitionFits(transition) && Writable(transition)
  {
    FitIdentity(transition.identity);
    hide Writable, IdentityFits, Validated, Wide, PathOpsFit, SymbolOpsFit, DictionaryOf;
    if WithinLimits(transition) { FitWritable(transition); }
  }

  lemma Arrives(strings: Dictionary, transition: Transition, frame: seq<byte>)
    requires Sendable(transition.identity) && DictionaryOf(strings, transition) && Fit(transition)
    requires frame == Bytes(strings, FrameTokens(strings, transition.identity, RowTokens(transition)))
    ensures Carriable(transition) ==> DecodeTransition(frame) == if WithinLimits(transition) then Good(transition, []) else Bad
  {
    SizeIs(strings, transition);
    hide TextsCodable, DictionaryOf, Bytes, FrameTokens, RowTokens, DecodeTransition, SchemaHoldsOps, CarriedOps, PathOpsFit, SymbolOpsFit;
    if Carriable(transition) {
      if |strings| > PACKED_COLLECTION_LIMIT {
        OverfullDictionary(strings, transition.identity, RowTokens(transition));
      } else if WithinLimits(transition) {
        EncodedFrameDecodes(strings, transition, frame);
        SchemaHoldsFromFour(transition.identity.schema, transition.paths);
        CarriedOpsWhole(transition.identity.schema, transition.paths);
      } else {
        DictionaryReady(strings, transition);
        OverfullRows(strings, transition);
      }
    }
  }

  lemma SizeIs(strings: Dictionary, transition: Transition)
    requires DictionaryOf(strings, transition)
    ensures (exists others :: DictionaryOf(others, transition) && |others| <= PACKED_COLLECTION_LIMIT) <==> |strings| <= PACKED_COLLECTION_LIMIT
  {
    hide DictionaryOf;
    forall others | DictionaryOf(others, transition) ensures |others| == |strings| { DictionarySize(others, strings, transition); }
  }

  // --- a delta between two tables ---

  datatype Retained = Retained(paths: PathTableState, symbols: PackedIndex<StoredSymbol>)

  ghost predicate Holds(retained: Retained, table: TransitionDeltas.Table) {
    && ValidState(retained.paths) && ValidSymbols(retained.symbols)
    && Rows(retained.paths.paths) == Merged(table.rows)
    && Viewed(Rows(retained.symbols)) == MapRows(ViewOf, ChunkRows(table.symbols))
  }

  ghost predicate TableFits(table: TransitionDeltas.Table) {
    TransitionDeltas.TableFormed(table) && StreamsFit(table.rows) && SymbolsFit(ChunkRows(table.symbols))
  }

  /** The client that holds the base, sent the planned delta, holds the target; if a used
  manifest misses something it does not, and nothing else can go wrong. */
  method SendDelta(base: TransitionDeltas.Table, target: TransitionDeltas.Table, identity: Identity, stream: Option<Stream>, client: Retained)
    returns (next: Option<Retained>, sent: Transition)
    requires TableFits(base) && TableFits(target) && Coherent(base.symbols, target.symbols)
    requires Sendable(identity) && identity.mode == Delta && Holds(client, base)
    ensures sent.identity == identity
    ensures Carriable(sent) && next.Some? ==> IsNothing(sent) || WithinLimits(sent)
    ensures Carriable(sent) && stream.None? && (IsNothing(sent) || WithinLimits(sent)) ==> next.Some?
    ensures Carriable(sent) && next.Some? ==>
      (Holds(next.value, target) <==> (TransitionDeltas.UsesManifest(base, target) ==> TransitionDeltas.ManifestCovers(base, target)))
  {
    hide *;
    FitParts(base);
    FitParts(target);
    HoldsIs(client, base);
    var pathOps, symbolOps := TransitionDeltas.PlanDelta(base, target);
    sent := Transition(identity, pathOps, symbolOps);
    PlanPasses(base, target, sent);
    var delivery := Deliver(sent, stream);
    if delivery.Silent? {
      SilentLands(client, sent);
      HoldsIs(client, target);
      return Some(client), sent;
    }
    if delivery.Lost? { return None, sent; }
    FormedApplies(delivery.transition);
    var paths := ApplyPathDelta(client.paths, delivery.transition.paths);
    var symbols := ApplySymbolDelta(client.symbols, delivery.transition.symbols);
    if symbols.None? { return None, sent; }
    next := Some(Retained(paths, symbols.value));
    HoldsIs(next.value, target);
  }

  lemma FitParts(table: TransitionDeltas.Table)
    requires TableFits(table)
    ensures TransitionDeltas.TableFormed(table) && StreamsFit(table.rows) && SymbolsFit(ChunkRows(table.symbols))
  {
    hide TransitionDeltas.TableFormed, StreamsFit, SymbolsFit, ChunkRows;
  }

  lemma HoldsIs(retained: Retained, table: TransitionDeltas.Table)
    ensures Holds(retained, table) <==> (
      && ValidState(retained.paths) && ValidSymbols(retained.symbols)
      && Rows(retained.paths.paths) == Merged(table.rows)
      && Viewed(Rows(retained.symbols)) == MapRows(ViewOf, ChunkRows(table.symbols)))
  {
    hide ValidState, ValidSymbols, Rows, Merged, Viewed, MapRows, ChunkRows;
  }

  /** Planned operations pass the decoder's checks. */
  lemma PlanPasses(base: TransitionDeltas.Table, target: TransitionDeltas.Table, transition: Transition)
    requires StreamsFit(target.rows) && SymbolsFit(ChunkRows(base.symbols)) && SymbolsFit(ChunkRows(target.symbols))
    requires Sorted(transition.paths) && OpsFrom(target.rows, transition.paths)
    requires EditsFromTables(ChunkRows(base.symbols), ChunkRows(target.symbols), transition.symbols)
    requires Sendable(transition.identity) && transition.identity.mode == Delta
    ensures Fit(transition)
  {
    hide Sorted, StreamsFit, SymbolsFit, ChunkRows, OpsFrom, EditsFromTables, PathOpsFit, SymbolOpsFit, IdentityFits;
    if |transition.paths| <= PACKED_COLLECTION_LIMIT { PathOpsPass(Delta, target.rows, transition.paths); }
    if |transition.symbols| <= PACKED_COLLECTION_LIMIT { SymbolOpsPass(ChunkRows(base.symbols), ChunkRows(target.symbols), transition.symbols); }
  }

  lemma SilentLands(client: Retained, transition: Transition)
    requires IsNothing(transition)
    ensures ApplyAll(PathStep, Rows(client.paths.paths), transition.paths) == Rows(client.paths.paths)
    ensures ApplyAll(SymbolStep, Viewed(Rows(client.symbols)), transition.symbols) == Viewed(Rows(client.symbols))
  {
    hide Rows, Viewed;
  }

  // --- an analyze of the retained session ---

  /** The streams hold the session's table. */
  ghost predicate Streamed(streams: Streams, table: Engine.Table) {
    Canonical(streams) && forall path :: RowsOf(streams, path) == Engine.RowsAt(table, path)
  }

  function EveryStream(paths: set<Path>): PathManifest {
    PathManifest(paths, paths, paths)
  }

  /** The transition a completing analyze answers with, its paths when it is a delta. */
  ghost predicate Answers(sys: SessionRuns.System, request: Engine.Request, target: Streams, manifest: Option<set<Path>>) {
    var answer := Engine.AnalyzedTransition(sys.session, sys.program, request);
    var table := Engine.AnalyzedClosure(sys.session, sys.program, request).table.value;
    && Streamed(target, table)
    && if manifest.Some? then answer.Delta? && answer.rows == Engine.SparseOps(table, manifest.value)
       else answer.Full? && answer.rows == Engine.FullOps(table)
  }

  ghost predicate Completing(sys: SessionRuns.System, request: Engine.Request) {
    && SessionRuns.Inv(sys) && SessionRuns.Admissible(sys, SessionRuns.Query(request, false, true))
    && SessionRuns.Completes(sys.session, request, false)
  }

  ghost predicate HoldsClient(client: PathTableState, sys: SessionRuns.System) {
    ValidState(client) && sys.client.rows.Some? && AsMap(Rows(client.paths)) == sys.client.rows.value
  }

  /** An analyze of the retained session reaches the client's packed table byte by byte: once
  delivered, its rows are those of a full rematerialisation of the new groups. */
  method SendAnalyze(ghost sys: SessionRuns.System, ghost request: Engine.Request, target: Streams, manifest: Option<set<Path>>,
      identity: Identity, stream: Option<Stream>, client: PathTableState)
    returns (next: Option<PathTableState>, sent: Transition)
    requires Completing(sys, request) && Answers(sys, request, target, manifest) && StreamsFit(target)
    requires Sendable(identity) && identity.mode == if manifest.Some? then Delta else Full
    requires manifest.Some? ==> "" !in manifest.value && HoldsClient(client, sys)
    ensures sent.identity == identity
    ensures Carriable(sent) && next.Some? ==> IsNothing(sent) || WithinLimits(sent)
    ensures Carriable(sent) && stream.None? && (IsNothing(sent) || WithinLimits(sent)) ==> next.Some?
    ensures Carriable(sent) && next.Some? ==>
      && ValidState(next.value)
      && Engine.Mirrors(AsMap(Rows(next.value.paths)), sys.program, Engine.NextGroups(sys.session, request))
  {
    hide *;
    AnswersParts(sys, request, target, manifest);
    var ops;
    if manifest.Some? {
      ops := PlanSparse(target, EveryStream(manifest.value));
      SparsePasses(target, manifest.value, ops, identity);
    } else {
      ops := PlanFull(target);
      FullPasses(target, ops, identity);
    }
    sent := Transition(identity, ops, []);
    var delivery := Deliver(sent, stream);
    if delivery.Lost? { return None, sent; }
    var arrived := ops;
    if delivery.Received? {
      FormedApplies(delivery.transition);
      arrived := delivery.transition.paths;
    }
    var paths;
    if manifest.Some? {
      HoldsClientParts(client, sys);
      paths := ApplyPathDelta(client, arrived);
      SparseReaches(sys, request, target, manifest.value, ops, Rows(client.paths));
    } else {
      paths := MaterializeFullPaths(arrived);
      FullReaches(sys, request, target, ops);
    }
    next := Some(paths);
  }

  lemma AnswersParts(sys: SessionRuns.System, request: Engine.Request, target: Streams, manifest: Option<set<Path>>)
    requires Answers(sys, request, target, manifest)
    ensures Canonical(target)
  {
    hide Canonical, RowsOf, Engine.RowsAt, Engine.AnalyzedTransition, Engine.AnalyzedClosure, Engine.SparseOps, Engine.FullOps;
  }

  lemma HoldsClientParts(client: PathTableState, sys: SessionRuns.System)
    requires HoldsClient(client, sys)
    ensures ValidState(client) && Sorted(Rows(client.paths)) && sys.client.rows.Some? && AsMap(Rows(client.paths)) == sys.client.rows.value
  {
    ValidPathsParts(client.paths);
    hide Sorted, AsMap, Rows;
  }

  lemma SparsePasses(target: Streams, paths: set<Path>, ops: PathOps, identity: Identity)
    requires StreamsFit(target) && "" !in paths && Sorted(ops)
    requires forall path :: Find(ops, path) == SparseAt(target, EveryStream(paths), path)
    requires Sendable(identity) && identity.mode == Delta
    ensures Fit(Transition(identity, ops, []))
  {
    hide Find, SparseAt, Sorted, StreamsFit, OpsFrom, PathOpsFit, IdentityFits;
    SparseFrom(target, EveryStream(paths), ops);
    if |ops| <= PACKED_COLLECTION_LIMIT { PathOpsPass(Delta, target, ops); }
  }

  lemma FullPasses(target: Streams, ops: PathOps, identity: Identity)
    requires Canonical(target) && StreamsFit(target) && Sorted(ops)
    requires forall path :: Find(ops, path) == DiffAt([], Merged(target), path)
    requires Sendable(identity) && identity.mode == Full
    ensures Fit(Transition(identity, ops, []))
  {
    hide Find, DiffAt, Merged, Canonical, Sorted, StreamsFit, OpsFrom, ReplacesOnly, PathOpsFit, IdentityFits;
    FullFrom(target, ops);
    if |ops| <= PACKED_COLLECTION_LIMIT { PathOpsPass(Full, target, ops); }
  }

  /** What the client of the session model holds after the analyze. */
  lemma AnalyzeMirrors(sys: SessionRuns.System, request: Engine.Request)
    requires Completing(sys, request)
    ensures var answer := Engine.AnalyzedTransition(sys.session, sys.program, request);
      && (answer.Delta? ==> sys.client.rows.Some?)
      && Engine.Mirrors(Engine.ApplyOps(if answer.Delta? then sys.client.rows.value else map[], answer.rows),
           sys.program, Engine.NextGroups(sys.session, request))
  {
    hide *;
    CompletingParts(sys, request);
    SessionRuns.CompletedStep(sys, request);
    SessionRuns.CompletedAnalyze(sys, request);
    StepAnswers(sys, request);
  }

  lemma CompletingParts(sys: SessionRuns.System, request: Engine.Request)
    requires Completing(sys, request)
    ensures SessionRuns.Inv(sys) && SessionRuns.Admissible(sys, SessionRuns.Query(request, false, true)) && SessionRuns.Completes(sys.session, request, false)
    ensures sys.client.token <= sys.session.token
  {
    hide SessionRuns.ClosureInv, Oracles.Lawful, Engine.Mirrors, SessionRuns.Tracks, SessionRuns.Admissible, SessionRuns.Completes;
  }

  /** The step hands the answer to the client; the token shows that the client took it. */
  lemma StepAnswers(sys: SessionRuns.System, request: Engine.Request)
    requires SessionRuns.Completes(sys.session, request, false)
    requires SessionRuns.Step(sys, SessionRuns.Query(request, false, true)).client.rows.Some?
    requires SessionRuns.Step(sys, SessionRuns.Query(request, false, true)).client.token == sys.session.token + 1
    requires sys.client.token <= sys.session.token
    ensures var answer := Engine.AnalyzedTransition(sys.session, sys.program, request);
      && (answer.Delta? ==> sys.client.rows.Some?)
      && SessionRuns.Step(sys, SessionRuns.Query(request, false, true)).client.rows.value
         == Engine.ApplyOps(if answer.Delta? then sys.client.rows.value else map[], answer.rows)
  {
    hide Engine.ApplyOps, Engine.AnalyzedTransition, Engine.AnalyzedClosure, Engine.NextGroups, Engine.Reuses, Engine.Released;
  }

  lemma SparseReaches(sys: SessionRuns.System, request: Engine.Request, target: Streams, paths: set<Path>, ops: PathOps, rows: seq<Row<PathRows>>)
    requires Completing(sys, request) && Answers(sys, request, target, Some(paths))
    requires Sorted(ops) && forall path :: Find(ops, path) == SparseAt(target, EveryStream(paths), path)
    requires Sorted(rows) && sys.client.rows.Some? && AsMap(rows) == sys.client.rows.value
    ensures Engine.Mirrors(AsMap(ApplyAll(PathStep, rows, ops)), sys.program, Engine.NextGroups(sys.session, request))
  {
    hide *;
    AnalyzeMirrors(sys, request);
    SparseOpsAre(sys, request, target, paths, ops);
    PackedDeltaRefinesClientStep(rows, ops);
  }

  lemma SparseOpsAre(sys: SessionRuns.System, request: Engine.Request, target: Streams, paths: set<Path>, ops: PathOps)
    requires Answers(sys, request, target, Some(paths))
    requires forall path :: Find(ops, path) == SparseAt(target, EveryStream(paths), path)
    ensures var answer := Engine.AnalyzedTransition(sys.session, sys.program, request); answer.Delta? && AsMap(ops) == answer.rows
  {
    var table := Engine.AnalyzedClosure(sys.session, sys.program, request).table.value;
    hide Find, AsMap, Canonical, RowsOf, Engine.RowsAt, Engine.AnalyzedTransition, Engine.AnalyzedClosure, SparseOp;
    var left, right := AsMap(ops), Engine.SparseOps(table, paths);
    forall path ensures (path in left <==> path in right) && (path in left ==> left[path] == right[path]) {
      EverySparse(target, paths, path);
      assert RowsOf(target, path) == Engine.RowsAt(table, path);
    }
    assert left == right;
  }

  lemma EverySparse(target: Streams, paths: set<Path>, path: Path)
    ensures SparseAt(target, EveryStream(paths), path) == if path in paths then Some(SparseOp(RowsOf(target, path))) else None
  {
    hide RowsOf;
  }

  lemma FullReaches(sys: SessionRuns.System, request: Engine.Request, target: Streams, ops: PathOps)
    requires Completing(sys, request) && Answers(sys, request, target, None) && Canonical(target)
    requires Sorted(ops) && forall path :: Find(ops, path) == DiffAt([], Merged(target), path)
    ensures Engine.Mirrors(AsMap(ApplyAll(PathStep, [], ops)), sys.program, Engine.NextGroups(sys.session, request))
  {
    hide *;
    FullLands(target, ops);
    MergedMeaning(target);
    AnalyzeMirrors(sys, request);
    FullIs(sys, request, target);
  }

  lemma FullIs(sys: SessionRuns.System, request: Engine.Request, target: Streams)
    requires Answers(sys, request, target, None)
    requires forall path :: Find(Merged(target), path) == EntryOf(RowsOf(target, path))
    requires var answer := Engine.AnalyzedTransition(sys.session, sys.program, request);
      answer.Full? ==> Engine.Mirrors(Engine.ApplyOps(map[], answer.rows), sys.program, Engine.NextGroups(sys.session, request))
    ensures Engine.Mirrors(AsMap(Merged(target)), sys.program, Engine.NextGroups(sys.session, request))
  {
    var table := Engine.AnalyzedClosure(sys.session, sys.program, request).table.value;
    hide Find, AsMap, Merged, Canonical, RowsOf, Engine.RowsAt, Engine.AnalyzedTransition, Engine.AnalyzedClosure, Engine.FullOps,
      Engine.ApplyOps, Engine.FullRows, Engine.NextGroups;
    var rows := AsMap(Merged(target));
    forall path ensures Engine.ClientAt(rows, path) == Engine.ClientAt(Engine.ApplyOps(map[], Engine.FullOps(table)), path) {
      SessionRuns.FullOpsLand(table, path);
      assert RowsOf(target, path) == Engine.RowsAt(table, path);
      EntryAt(Merged(target), RowsOf(target, path), path);
    }
  }

  lemma EntryAt(rows: seq<Row<PathRows>>, value: PathRows, path: Path)
    requires Find(rows, path) == EntryOf(value)
    ensures Engine.ClientAt(AsMap(rows), path) == value
  {
    hide Find, AsMap;
  }
}
