/** Path operations on the packed wire (internal/typefacts/wire_transition_rows.go:43-101,451-514,
crates/typefacts/src/v3.rs:1105-1244,1313-1387). */
module PackedPathOps {
  import opened Order
  import opened SortedRows
  import opened Facts
  import opened PathTable
  import opened Varints
  import opened PackedTokens
  import opened PackedLocations
  import opened PackedEntities

  datatype Mode = Full | Delta

  const DIGEST_LENGTH: nat := 32

  // --- file facts ---

  function AsyncTokens(fact: AsyncFunctionFact): seq<Token> {
    LocationTokens(fact.expression, Fresh)
    + ([Text(fact.symbol, 1, 0)] + ([Text(fact.target, 1, 0)]
    + ([Num(if fact.canReturnAsync then 1 else 0)] + LocationsTokens(fact.callsAfterAwait))))
  }

  function AsyncListTokens(facts: seq<AsyncFunctionFact>): seq<Token> {
    if facts == [] then [] else AsyncTokens(facts[0]) + AsyncListTokens(facts[1..])
  }

  /** Three counts of rows outside this model, then the async functions. */
  function FileTokens(file: FileFact): seq<Token> {
    [Num(0)] + ([Num(0)] + ([Num(0)] + ([Length(file.asyncFunctions)] + AsyncListTokens(file.asyncFunctions))))
  }

  function DecodeAsync(dict: Dictionary, input: seq<byte>): Parsed<AsyncFunctionFact> {
    var expression :- DecodeLocation(dict, input, Fresh);
    var symbol :- StringIndex(dict, expression.1);
    var target :- StringIndex(dict, symbol.1);
    var flags :- U64(target.1);
    if flags.0 > 1 then Bad
    else
      var calls :- DecodeLocations(dict, flags.1);
      Good(AsyncFunctionFact(expression.0, symbol.0, target.0, flags.0 == 1, calls.0), calls.1)
  }

  function DecodeAsyncList(dict: Dictionary, input: seq<byte>, count: nat): Parsed<seq<AsyncFunctionFact>>
    decreases count
  {
    if count == 0 then Good([], input)
    else
      var first :- DecodeAsync(dict, input);
      var others :- DecodeAsyncList(dict, first.1, count - 1);
      Good([first.0] + others.0, others.1)
  }

  function Zero(input: seq<byte>): Parsed<nat> {
    var count :- Counted(input);
    if count.0 != 0 then Bad else Good(0, count.1)
  }

  function DecodeFile(dict: Dictionary, path: Path, input: seq<byte>): Parsed<FileFact> {
    var calls :- Zero(input);
    var bindings :- Zero(calls.1);
    var functions :- Zero(bindings.1);
    var count :- Counted(functions.1);
    var facts :- DecodeAsyncList(dict, count.1, count.0);
    Good(FileFact(path, facts.0), facts.1)
  }

  predicate AsyncPlaced(fact: AsyncFunctionFact) {
    Placed(fact.expression) && AllPlaced(fact.callsAfterAwait)
  }

  ghost predicate AllAsyncPlaced(facts: seq<AsyncFunctionFact>) {
    |facts| <= PACKED_COLLECTION_LIMIT && forall k :: 0 <= k < |facts| ==> AsyncPlaced(facts[k])
  }

  lemma AsyncRoundTrip(dict: Dictionary, fact: AsyncFunctionFact, rest: seq<Token>)
    requires AsyncPlaced(fact) && Fits(dict, AsyncTokens(fact))
    ensures DecodeAsync(dict, Bytes(dict, AsyncTokens(fact) + rest)) == Good(fact, Bytes(dict, rest))
  {
    hide Bytes, Fits, LocationTokens, LocationsTokens, DecodeLocation, DecodeLocations, StringIndex, U64, TokenFits, Placed, AllPlaced;
    var expression, calls := LocationTokens(fact.expression, Fresh), LocationsTokens(fact.callsAfterAwait);
    var symbol, target := [Text(fact.symbol, 1, 0)], [Text(fact.target, 1, 0)];
    var flags: nat := if fact.canReturnAsync then 1 else 0;
    var tail := [Num(flags)] + calls;
    Fits4(dict, expression, symbol, target, tail);
    Nest4(expression, symbol, target, tail, rest);
    FitsConcat(dict, [Num(flags)], calls);
    Nest2([Num(flags)], calls, rest);
    OneFits(dict, symbol[0]);
    OneFits(dict, target[0]);
    LocationRoundTrip(dict, fact.expression, Fresh, symbol + (target + (tail + rest)));
    ReadText(dict, fact.symbol, target + (tail + rest));
    ReadText(dict, fact.target, tail + rest);
    ReadNum(dict, flags, calls + rest);
    LocationsRoundTrip(dict, fact.callsAfterAwait, rest);
  }

  lemma {:induction false} AsyncListRoundTrip(dict: Dictionary, facts: seq<AsyncFunctionFact>, rest: seq<Token>)
    requires AllAsyncPlaced(facts) && Fits(dict, AsyncListTokens(facts))
    ensures DecodeAsyncList(dict, Bytes(dict, AsyncListTokens(facts) + rest), |facts|) == Good(facts, Bytes(dict, rest))
  {
    hide Bytes, Fits, DecodeAsync, AsyncTokens, AsyncPlaced;
    if facts == [] {
      assert AsyncListTokens(facts) + rest == rest;
    } else {
      var first, others := AsyncTokens(facts[0]), AsyncListTokens(facts[1..]);
      FitsConcat(dict, first, others);
      Nest2(first, others, rest);
      AsyncRoundTrip(dict, facts[0], others + rest);
      AsyncListRoundTrip(dict, facts[1..], rest);
      assert facts == [facts[0]] + facts[1..];
    }
  }

  lemma ReadZero(dict: Dictionary, rest: seq<Token>)
    ensures Zero(Bytes(dict, [Num(0)] + rest)) == Good(0, Bytes(dict, rest))
  {
    hide Bytes;
    ReadNum(dict, 0, rest);
    hide U64;
  }

  lemma FileRoundTrip(dict: Dictionary, file: FileFact, rest: seq<Token>)
    requires AllAsyncPlaced(file.asyncFunctions) && Fits(dict, FileTokens(file))
    ensures DecodeFile(dict, file.path, Bytes(dict, FileTokens(file) + rest)) == Good(file, Bytes(dict, rest))
  {
    hide Bytes, Fits, Counted, Zero, AsyncListTokens, DecodeAsyncList, AllAsyncPlaced;
    var zero, list := [Num(0)], AsyncListTokens(file.asyncFunctions);
    var count := [Length(file.asyncFunctions)];
    Fits4(dict, zero, zero, zero, count + list);
    FitsConcat(dict, count, list);
    Nest4(zero, zero, zero, count + list, rest);
    Nest2(count, list, rest);
    ReadZero(dict, zero + (zero + ((count + list) + rest)));
    ReadZero(dict, zero + ((count + list) + rest));
    ReadZero(dict, (count + list) + rest);
    PlacedCount(file.asyncFunctions);
    ReadLength(dict, file.asyncFunctions, list + rest);
    AsyncListRoundTrip(dict, file.asyncFunctions, rest);
  }

  lemma PlacedCount(facts: seq<AsyncFunctionFact>)
    requires AllAsyncPlaced(facts)
    ensures |facts| <= PACKED_COLLECTION_LIMIT
  {
  }

  // --- one path operation ---

  function SlotCode<T>(op: SlotOp<T>): nat {
    match op
    case Unchanged => 0
    case Replace(_) => 1
    case Remove => 2
  }

  /** `wireTransitionPathFlags`: two bits a slot. */
  function SlotBits(op: PathOp): nat {
    SlotCode(op.source) + 4 * SlotCode(op.entities) + 16 * SlotCode(op.file)
  }

  function SourceField(op: SlotOp<Digest>): seq<Token> {
    if op.Replace? then [Raw(op.value)] else []
  }

  function RunField(schema: nat, op: SlotOp<seq<EntityFact>>): seq<Token> {
    if op.Replace? then RunTokens(schema, op.value) else []
  }

  function FileField(op: SlotOp<FileFact>): seq<Token> {
    if op.Replace? then FileTokens(op.value) else []
  }

  function PathOpTokens(schema: nat, row: Row<PathOp>): seq<Token> {
    [Text(row.key, 1, 0), Num(SlotBits(row.value))]
    + (SourceField(row.value.source) + (RunField(schema, row.value.entities) + FileField(row.value.file)))
  }

  function DecodeSource(tag: nat, input: seq<byte>): Parsed<SlotOp<Digest>> {
    if tag == 0 then Good(Unchanged, input)
    else if tag == 1 then
      var digest :- RawBytes(input, DIGEST_LENGTH);
      Good(Replace(digest.0), digest.1)
    else Good(Remove, input)
  }

  predicate PlaceAtMost(a: Location, b: Location) {
    a.startByte < b.startByte || (a.startByte == b.startByte && a.endByte <= b.endByte)
  }

  predicate RunCanonical(entities: seq<EntityFact>) {
    forall k :: 0 < k < |entities| ==> PlaceAtMost(entities[k - 1].location, entities[k].location)
  }

  function DecodeEntities(dict: Dictionary, schema: nat, path: Path, tag: nat, input: seq<byte>): Parsed<SlotOp<seq<EntityFact>>> {
    if tag == 0 then Good(Unchanged, input)
    else if tag == 1 then
      var run :- DecodeRun(dict, schema, path, input);
      if run.0 == [] || !RunCanonical(run.0) then Bad else Good(Replace(run.0), run.1)
    else Good(Remove, input)
  }

  function DecodeFileSlot(dict: Dictionary, path: Path, tag: nat, input: seq<byte>): Parsed<SlotOp<FileFact>> {
    if tag == 0 then Good(Unchanged, input)
    else if tag == 1 then
      var file :- DecodeFile(dict, path, input);
      Good(Replace(file.0), file.1)
    else Good(Remove, input)
  }

  /** The three tags, if the flags are acceptable in this mode. */
  function ParseSlots(mode: Mode, bits: nat): Option<(nat, nat, nat)> {
    var source, entities, file := bits % 4, bits / 4 % 4, bits / 16 % 4;
    if bits > 63 || source == 3 || entities == 3 || file == 3 then None
    else if source == 0 && entities == 0 && file == 0 then None
    else if mode == Full && (source == 2 || entities == 2 || file == 2) then None
    else Some((source, entities, file))
  }

  function DecodeSlots(dict: Dictionary, schema: nat, path: Path, tags: (nat, nat, nat), input: seq<byte>): Parsed<PathOp> {
    var source :- DecodeSource(tags.0, input);
    var entities :- DecodeEntities(dict, schema, path, tags.1, source.1);
    var file :- DecodeFileSlot(dict, path, tags.2, entities.1);
    Good(PathOp(source.0, entities.0, file.0), file.1)
  }

  /** One turn of the decoder's path loop: paths non-empty and strictly increasing. */
  function DecodePathOp(dict: Dictionary, schema: nat, mode: Mode, previous: Option<Path>, input: seq<byte>): Parsed<Row<PathOp>> {
    var path :- StringIndex(dict, input);
    if path.0 == "" || (previous.Some? && !Less(previous.value, path.0)) then Bad
    else
      var bits :- U64(path.1);
      match ParseSlots(mode, bits.0)
      case None => Bad
      case Some(tags) =>
        var op :- DecodeSlots(dict, schema, path.0, tags, bits.1);
        Good(Row(path.0, op.0), op.1)
  }

  /** The operation projected to the schema's vocabulary. */
  function CarriedOp(schema: nat, op: PathOp): PathOp {
    if op.entities.Replace? then op.(entities := Replace(CarriedRun(schema, op.entities.value))) else op
  }

  ghost predicate PathOpFits(row: Row<PathOp>) {
    && row.key != ""
    && (row.value.source.Replace? ==> |row.value.source.value| == DIGEST_LENGTH)
    && (row.value.entities.Replace? ==> EntitiesFit(row.key, row.value.entities.value))
    && (row.value.file.Replace? ==> row.value.file.value.path == row.key && AllAsyncPlaced(row.value.file.value.asyncFunctions))
  }

  ghost predicate EntitiesFit(path: Path, entities: seq<EntityFact>) {
    entities != [] && RunFits(path, entities) && RunCanonical(entities)
  }

  /** No empty operation, and no removal in a full transition. */
  predicate SlotsFit(mode: Mode, op: PathOp) {
    && !(op.source.Unchanged? && op.entities.Unchanged? && op.file.Unchanged?)
    && (mode == Full ==> !op.source.Remove? && !op.entities.Remove? && !op.file.Remove?)
  }

  ghost predicate SchemaHoldsOp(schema: nat, op: PathOp) {
    op.entities.Replace? ==> SchemaHoldsRun(schema, op.entities.value)
  }

  lemma SlotsRead(mode: Mode, op: PathOp)
    requires SlotsFit(mode, op)
    ensures SlotBits(op) < 64
    ensures ParseSlots(mode, SlotBits(op)) == Some((SlotCode(op.source), SlotCode(op.entities), SlotCode(op.file)))
  {
    Base4(SlotCode(op.source), SlotCode(op.entities), SlotCode(op.file));
  }

  lemma Base4(a: nat, b: nat, c: nat)
    requires a < 4 && b < 4 && c < 4
    ensures var n := a + 4 * b + 16 * c;
      n < 64 && n % 4 == a && n / 4 % 4 == b && n / 16 % 4 == c
  {
  }

  lemma SourceFieldRoundTrip(dict: Dictionary, op: SlotOp<Digest>, rest: seq<Token>)
    requires op.Replace? ==> |op.value| == DIGEST_LENGTH
    ensures DecodeSource(SlotCode(op), Bytes(dict, SourceField(op) + rest)) == Good(op, Bytes(dict, rest))
  {
    hide Bytes;
    if op.Replace? {
      ReadRaw(dict, op.value, rest);
    } else {
      assert SourceField(op) + rest == rest;
    }
  }

  lemma RunFieldRoundTrip(dict: Dictionary, schema: nat, path: Path, op: SlotOp<seq<EntityFact>>, rest: seq<Token>)
    requires AcceptedSchema(schema) && Fits(dict, RunField(schema, op)) && (op.Replace? ==> EntitiesFit(path, op.value))
    ensures DecodeEntities(dict, schema, path, SlotCode(op), Bytes(dict, RunField(schema, op) + rest))
         == if op.Replace? then (if SchemaHoldsRun(schema, op.value) then Good(Replace(CarriedRun(schema, op.value)), Bytes(dict, rest)) else Bad)
            else Good(op, Bytes(dict, rest))
  {
    hide Bytes, Fits, DecodeRun, RunTokens, SchemaHoldsRun, RunFits;
    if op.Replace? {
      RunRoundTrip(dict, schema, path, op.value, rest);
      CarriedCanonical(schema, op.value);
    } else {
      assert RunField(schema, op) + rest == rest;
    }
  }

  lemma CarriedCanonical(schema: nat, entities: seq<EntityFact>)
    requires RunCanonical(entities)
    ensures RunCanonical(CarriedRun(schema, entities))
  {
    var carried := CarriedRun(schema, entities);
    forall k | 0 < k < |carried| ensures PlaceAtMost(carried[k - 1].location, carried[k].location) {
      CarriedPlace(schema, entities[k - 1]);
      CarriedPlace(schema, entities[k]);
      assert PlaceAtMost(entities[k - 1].location, entities[k].location);
      hide Carried;
    }
  }

  lemma FileFieldRoundTrip(dict: Dictionary, path: Path, op: SlotOp<FileFact>, rest: seq<Token>)
    requires Fits(dict, FileField(op)) && (op.Replace? ==> op.value.path == path && AllAsyncPlaced(op.value.asyncFunctions))
    ensures DecodeFileSlot(dict, path, SlotCode(op), Bytes(dict, FileField(op) + rest)) == Good(op, Bytes(dict, rest))
  {
    hide Bytes, Fits, DecodeFile, FileTokens, AllAsyncPlaced;
    if op.Replace? {
      FileRoundTrip(dict, op.value, rest);
    } else {
      assert FileField(op) + rest == rest;
    }
  }

  lemma SlotsRoundTrip(dict: Dictionary, schema: nat, row: Row<PathOp>, rest: seq<Token>)
    requires AcceptedSchema(schema) && PathOpFits(row)
    requires Fits(dict, SourceField(row.value.source) + (RunField(schema, row.value.entities) + FileField(row.value.file)))
    ensures var op := row.value;
      var tokens := SourceField(op.source) + (RunField(schema, op.entities) + FileField(op.file));
      DecodeSlots(dict, schema, row.key, (SlotCode(op.source), SlotCode(op.entities), SlotCode(op.file)), Bytes(dict, tokens + rest))
      == if SchemaHoldsOp(schema, op) then Good(CarriedOp(schema, op), Bytes(dict, rest)) else Bad
  {
    hide Bytes, Fits, SourceField, RunField, FileField, DecodeSource, DecodeEntities, DecodeFileSlot, SlotCode;
    hide SchemaHoldsRun, CarriedRun, EntitiesFit, AllAsyncPlaced;
    var op := row.value;
    var source, run, file := SourceField(op.source), RunField(schema, op.entities), FileField(op.file);
    FitsConcat(dict, source, run + file);
    FitsConcat(dict, run, file);
    Nest2(source, run + file, rest);
    Nest2(run, file, rest);
    SourceFieldRoundTrip(dict, op.source, run + (file + rest));
    RunFieldRoundTrip(dict, schema, row.key, op.entities, file + rest);
    FileFieldRoundTrip(dict, row.key, op.file, rest);
  }

  lemma PathOpRoundTrip(dict: Dictionary, schema: nat, mode: Mode, previous: Option<Path>, row: Row<PathOp>, rest: seq<Token>)
    requires AcceptedSchema(schema) && PathOpFits(row) && SlotsFit(mode, row.value)
    requires previous.Some? ==> Less(previous.value, row.key)
    requires Fits(dict, PathOpTokens(schema, row))
    ensures DecodePathOp(dict, schema, mode, previous, Bytes(dict, PathOpTokens(schema, row) + rest))
         == if SchemaHoldsOp(schema, row.value) then Good(Row(row.key, CarriedOp(schema, row.value)), Bytes(dict, rest)) else Bad
  {
    hide Bytes, Fits, U64, StringIndex, ParseSlots, SlotBits, SlotCode, DecodeSlots, SchemaHoldsOp, CarriedOp, Less;
    hide SourceField, RunField, FileField, EntitiesFit, SlotsFit, TokenFits;
    var op := row.value;
    var path, bits := [Text(row.key, 1, 0)], [Num(SlotBits(op))];
    var slots := SourceField(op.source) + (RunField(schema, op.entities) + FileField(op.file));
    PairTokens(path[0], bits[0], slots, rest);
    FitsConcat(dict, [path[0], bits[0]], slots);
    FitsConcat(dict, path, bits);
    assert [path[0], bits[0]] == path + bits;
    OneFits(dict, path[0]);
    SlotsRead(mode, op);
    ReadText(dict, row.key, bits + (slots + rest));
    ReadNum(dict, SlotBits(op), slots + rest);
    SlotsRoundTrip(dict, schema, row, rest);
  }

  lemma PairTokens(a: Token, b: Token, c: seq<Token>, rest: seq<Token>)
    ensures ([a, b] + c) + rest == [a] + ([b] + (c + rest))
  {
  }

  // --- the list ---

  function PathOpsTokens(schema: nat, ops: seq<Row<PathOp>>): seq<Token> {
    if ops == [] then [] else PathOpTokens(schema, ops[0]) + PathOpsTokens(schema, ops[1..])
  }

  function DecodePathOps(dict: Dictionary, schema: nat, mode: Mode, previous: Option<Path>, input: seq<byte>, count: nat): Parsed<seq<Row<PathOp>>>
    decreases count
  {
    if count == 0 then Good([], input)
    else
      var first :- DecodePathOp(dict, schema, mode, previous, input);
      var others :- DecodePathOps(dict, schema, mode, Some(first.0.key), first.1, count - 1);
      Good([first.0] + others.0, others.1)
  }

  function CarriedOps(schema: nat, ops: seq<Row<PathOp>>): seq<Row<PathOp>> {
    if ops == [] then [] else [Row(ops[0].key, CarriedOp(schema, ops[0].value))] + CarriedOps(schema, ops[1..])
  }

  ghost predicate PathOpsFit(mode: Mode, ops: seq<Row<PathOp>>) {
    && |ops| <= PACKED_COLLECTION_LIMIT && Sorted(ops)
    && forall k :: 0 <= k < |ops| ==> PathOpFits(ops[k]) && SlotsFit(mode, ops[k].value)
  }

  ghost predicate SchemaHoldsOps(schema: nat, ops: seq<Row<PathOp>>) {
    forall k :: 0 <= k < |ops| ==> SchemaHoldsOp(schema, ops[k].value)
  }

  lemma OpsFitSplit(mode: Mode, ops: seq<Row<PathOp>>)
    requires ops != [] && PathOpsFit(mode, ops)
    ensures PathOpFits(ops[0]) && SlotsFit(mode, ops[0].value) && PathOpsFit(mode, ops[1..])
    ensures |ops| > 1 ==> Less(ops[0].key, ops[1..][0].key)
  {
    hide PathOpFits, SlotsFit, Less;
  }

  lemma OpsHoldSplit(schema: nat, ops: seq<Row<PathOp>>)
    requires ops != []
    ensures SchemaHoldsOps(schema, ops) <==> SchemaHoldsOp(schema, ops[0].value) && SchemaHoldsOps(schema, ops[1..])
  {
    hide SchemaHoldsOp;
    assert forall k :: 0 < k < |ops| ==> ops[k] == ops[1..][k - 1];
  }

  /** Ordered path operations come back projected to their schema, in the same order. */
  lemma {:induction false} PathOpsRoundTrip(dict: Dictionary, schema: nat, mode: Mode, previous: Option<Path>, ops: seq<Row<PathOp>>, rest: seq<Token>)
    requires AcceptedSchema(schema) && PathOpsFit(mode, ops) && Fits(dict, PathOpsTokens(schema, ops))
    requires previous.Some? && ops != [] ==> Less(previous.value, ops[0].key)
    ensures DecodePathOps(dict, schema, mode, previous, Bytes(dict, PathOpsTokens(schema, ops) + rest), |ops|)
         == if SchemaHoldsOps(schema, ops) then Good(CarriedOps(schema, ops), Bytes(dict, rest)) else Bad
    decreases |ops|
  {
    hide Bytes, Fits, DecodePathOp, PathOpTokens, PathOpsFit, PathOpFits, SlotsFit, SchemaHoldsOp, CarriedOp, Less;
    if ops == [] {
      assert PathOpsTokens(schema, ops) + rest == rest;
    } else {
      var first, others := PathOpTokens(schema, ops[0]), PathOpsTokens(schema, ops[1..]);
      OpsFitSplit(mode, ops);
      OpsHoldSplit(schema, ops);
      FitsConcat(dict, first, others);
      Nest2(first, others, rest);
      PathOpRoundTrip(dict, schema, mode, previous, ops[0], others + rest);
      PathOpsRoundTrip(dict, schema, mode, Some(ops[0].key), ops[1..], rest);
    }
  }
}
