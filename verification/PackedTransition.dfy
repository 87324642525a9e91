/** The packed frame of one table transition (internal/typefacts/wire_transition.go:91-260,
crates/typefacts/src/v3.rs:1246-1484): header, dictionary, rows. */
module PackedTransitions {
  import opened Order
  import opened SortedRows
  import opened Facts
  import opened PathTable
  import opened Varints
  import opened PackedTokens
  import opened PackedDictionaries
  import opened PackedLocations
  import opened PackedEntities
  import opened PackedPathOps
  import opened PackedSymbolOps
  import opened RetainedSymbols

  const TRANSITION_VERSION: nat := 1

  datatype Identity = Identity(
    mode: Mode, schema: nat, baseGeneration: nat, targetGeneration: nat, projectID: string, baseStateToken: string)

  datatype Transition = Transition(identity: Identity, paths: seq<Row<PathOp>>, symbols: seq<Row<SymbolEdit>>)

  function ModeCode(mode: Mode): nat {
    if mode == Full then 0 else 1
  }

  function HeaderTokens(identity: Identity): seq<Token> {
    [Num(TRANSITION_VERSION), Num(ModeCode(identity.mode)), Num(identity.schema), Num(identity.baseGeneration), Num(identity.targetGeneration)]
  }

  function PathRowsTokens(schema: nat, paths: seq<Row<PathOp>>): seq<Token> {
    [Length(paths)] + PathOpsTokens(schema, paths)
  }

  function SymbolRowsTokens(mode: Mode, symbols: seq<Row<SymbolEdit>>): seq<Token> {
    [Length(symbols)] + SymbolOpsTokens(mode, symbols)
  }

  /** What is written before the dictionary is known. */
  function RowTokens(transition: Transition): seq<Token> {
    [Text(transition.identity.projectID, 1, 0)] + ([Text(transition.identity.baseStateToken, 1, 0)]
    + (PathRowsTokens(transition.identity.schema, transition.paths) + SymbolRowsTokens(transition.identity.mode, transition.symbols)))
  }

  function FrameTokens(dict: Dictionary, identity: Identity, rows: seq<Token>): seq<Token> {
    HeaderTokens(identity) + (DictionaryTokens(dict) + rows)
  }

  // --- decoding ---

  datatype Numbers = Numbers(mode: Mode, schema: nat, baseGeneration: nat, targetGeneration: nat)

  function DecodeNumbers(input: seq<byte>): Parsed<Numbers> {
    var version :- U64(input);
    var mode :- U64(version.1);
    var schema :- U64(mode.1);
    var base :- U64(schema.1);
    var target :- U64(base.1);
    if version.0 != TRANSITION_VERSION || mode.0 > 1 || !AcceptedSchema(schema.0) || target.0 == 0 then Bad
    else Good(Numbers(if mode.0 == 0 then Full else Delta, schema.0, base.0, target.0), target.1)
  }

  function DecodeDictionary(input: seq<byte>): Parsed<Dictionary> {
    var dict :- DecodeStrings(input);
    if dict.0 == [] || dict.0[0] != "" || !Distinct(dict.0) then Bad else Good(dict.0, dict.1)
  }

  /** A full transition has no base; a delta has one, not after its target. */
  predicate BaseFits(identity: Identity) {
    if identity.mode == Full then identity.baseGeneration == 0 && identity.baseStateToken == ""
    else 0 < identity.baseGeneration <= identity.targetGeneration && identity.baseStateToken != ""
  }

  function DecodeIdentity(dict: Dictionary, numbers: Numbers, input: seq<byte>): Parsed<Identity> {
    var project :- StringIndex(dict, input);
    var token :- StringIndex(dict, project.1);
    var identity := Identity(numbers.mode, numbers.schema, numbers.baseGeneration, numbers.targetGeneration, project.0, token.0);
    if project.0 == "" || !BaseFits(identity) then Bad else Good(identity, token.1)
  }

  function DecodePathRows(dict: Dictionary, identity: Identity, input: seq<byte>): Parsed<seq<Row<PathOp>>> {
    var count :- Counted(input);
    DecodePathOps(dict, identity.schema, identity.mode, None, count.1, count.0)
  }

  function DecodeSymbolRows(dict: Dictionary, identity: Identity, input: seq<byte>): Parsed<seq<Row<SymbolEdit>>> {
    var count :- Counted(input);
    DecodeSymbolOps(dict, identity.mode, None, count.1, count.0)
  }

  /** Nothing may follow the last symbol operation. */
  function DecodeRows(dict: Dictionary, numbers: Numbers, input: seq<byte>): Parsed<Transition> {
    var identity :- DecodeIdentity(dict, numbers, input);
    var paths :- DecodePathRows(dict, identity.0, identity.1);
    var symbols :- DecodeSymbolRows(dict, identity.0, paths.1);
    if symbols.1 != [] then Bad else Good(Transition(identity.0, paths.0, symbols.0), [])
  }

  /** `decode_table_transition`. */
  function DecodeTransition(input: seq<byte>): Parsed<Transition> {
    var numbers :- DecodeNumbers(input);
    var dict :- DecodeDictionary(numbers.1);
    DecodeRows(dict.0, numbers.0, dict.1)
  }

  // --- the round trip ---

  ghost predicate IdentityFits(identity: Identity) {
    && AcceptedSchema(identity.schema) && identity.projectID != "" && BaseFits(identity)
    && 0 < identity.targetGeneration < U64_LIMIT && identity.baseGeneration < U64_LIMIT
  }

  ghost predicate TransitionFits(transition: Transition) {
    && IdentityFits(transition.identity)
    && PathOpsFit(transition.identity.mode, transition.paths)
    && SymbolOpsFit(transition.identity.mode, transition.symbols)
  }

  ghost predicate DictionaryFits(dict: Dictionary) {
    && dict != [] && dict[0] == "" && Distinct(dict) && AllCodable(dict) && |dict| <= PACKED_COLLECTION_LIMIT
  }

  function CarriedTransition(transition: Transition): Transition {
    transition.(paths := CarriedOps(transition.identity.schema, transition.paths))
  }

  lemma NumbersRoundTrip(dict: Dictionary, identity: Identity, rest: seq<Token>)
    requires IdentityFits(identity)
    ensures DecodeNumbers(Bytes(dict, HeaderTokens(identity) + rest))
         == Good(Numbers(identity.mode, identity.schema, identity.baseGeneration, identity.targetGeneration), Bytes(dict, rest))
  {
    hide Bytes, U64, BaseFits;
    var version, mode, schema := [Num(TRANSITION_VERSION)], [Num(ModeCode(identity.mode))], [Num(identity.schema)];
    var base, target := [Num(identity.baseGeneration)], [Num(identity.targetGeneration)];
    assert HeaderTokens(identity) == version + (mode + (schema + (base + target)));
    Nest2(version, mode + (schema + (base + target)), rest);
    Nest4(mode, schema, base, target, rest);
    ReadNum(dict, TRANSITION_VERSION, mode + (schema + (base + (target + rest))));
    ReadNum(dict, ModeCode(identity.mode), schema + (base + (target + rest)));
    ReadNum(dict, identity.schema, base + (target + rest));
    ReadNum(dict, identity.baseGeneration, target + rest);
    ReadNum(dict, identity.targetGeneration, rest);
  }

  lemma IdentityRoundTrip(dict: Dictionary, identity: Identity, rest: seq<Token>)
    requires IdentityFits(identity)
    requires TokenFits(dict, Text(identity.projectID, 1, 0)) && TokenFits(dict, Text(identity.baseStateToken, 1, 0))
    ensures var numbers := Numbers(identity.mode, identity.schema, identity.baseGeneration, identity.targetGeneration);
      DecodeIdentity(dict, numbers, Bytes(dict, [Text(identity.projectID, 1, 0)] + ([Text(identity.baseStateToken, 1, 0)] + rest)))
      == Good(identity, Bytes(dict, rest))
  {
    hide Bytes, StringIndex, TokenFits, BaseFits;
    ReadText(dict, identity.projectID, [Text(identity.baseStateToken, 1, 0)] + rest);
    ReadText(dict, identity.baseStateToken, rest);
  }

  lemma PathRowsRoundTrip(dict: Dictionary, transition: Transition, rest: seq<Token>)
    requires PathOpsFit(transition.identity.mode, transition.paths) && AcceptedSchema(transition.identity.schema)
    requires Fits(dict, PathRowsTokens(transition.identity.schema, transition.paths))
    ensures DecodePathRows(dict, transition.identity, Bytes(dict, PathRowsTokens(transition.identity.schema, transition.paths) + rest))
         == if SchemaHoldsOps(transition.identity.schema, transition.paths)
            then Good(CarriedTransition(transition).paths, Bytes(dict, rest)) else Bad
  {
    var count, ops := [Length(transition.paths)], PathOpsTokens(transition.identity.schema, transition.paths);
    assert |transition.paths| <= PACKED_COLLECTION_LIMIT;
    hide Bytes, Fits, Counted, DecodePathOps, PathOpsTokens, PathOpsFit, SymbolOpsFit, SchemaHoldsOps, CarriedOps, BaseFits;
    FitsConcat(dict, count, ops);
    Nest2(count, ops, rest);
    ReadLength(dict, transition.paths, ops + rest);
    PathOpsRoundTrip(dict, transition.identity.schema, transition.identity.mode, None, transition.paths, rest);
  }

  lemma SymbolRowsRoundTrip(dict: Dictionary, transition: Transition)
    requires SymbolOpsFit(transition.identity.mode, transition.symbols)
    requires Fits(dict, SymbolRowsTokens(transition.identity.mode, transition.symbols))
    ensures DecodeSymbolRows(dict, transition.identity, Bytes(dict, SymbolRowsTokens(transition.identity.mode, transition.symbols)))
         == Good(transition.symbols, [])
  {
    var count, ops := [Length(transition.symbols)], SymbolOpsTokens(transition.identity.mode, transition.symbols);
    assert Bytes(dict, []) == [];
    assert |transition.symbols| <= PACKED_COLLECTION_LIMIT;
    hide Bytes, Fits, Counted, DecodeSymbolOps, SymbolOpsTokens, PathOpsFit, SymbolOpsFit, BaseFits;
    FitsConcat(dict, count, ops);
    ReadLength(dict, transition.symbols, ops);
    assert ops + [] == ops;
    SymbolOpsRoundTrip(dict, transition.identity.mode, None, transition.symbols, []);
  }

  lemma RowsRoundTrip(dict: Dictionary, transition: Transition)
    requires TransitionFits(transition) && Fits(dict, RowTokens(transition))
    ensures var identity := transition.identity;
      var numbers := Numbers(identity.mode, identity.schema, identity.baseGeneration, identity.targetGeneration);
      DecodeRows(dict, numbers, Bytes(dict, RowTokens(transition)))
      == if SchemaHoldsOps(identity.schema, transition.paths) then Good(CarriedTransition(transition), []) else Bad
  {
    assert AcceptedSchema(transition.identity.schema);
    hide Bytes, Fits, DecodeIdentity, DecodePathRows, DecodeSymbolRows, PathRowsTokens, SymbolRowsTokens, TokenFits;
    hide PathOpsFit, SymbolOpsFit, IdentityFits, SchemaHoldsOps, CarriedOps;
    var project, token := [Text(transition.identity.projectID, 1, 0)], [Text(transition.identity.baseStateToken, 1, 0)];
    var paths, symbols := PathRowsTokens(transition.identity.schema, transition.paths), SymbolRowsTokens(transition.identity.mode, transition.symbols);
    Fits4(dict, project, token, paths, symbols);
    OneFits(dict, project[0]);
    OneFits(dict, token[0]);
    IdentityRoundTrip(dict, transition.identity, paths + symbols);
    PathRowsRoundTrip(dict, transition, symbols);
    SymbolRowsRoundTrip(dict, transition);
  }

  lemma DictionaryReads(dict: Dictionary, rest: seq<Token>)
    requires DictionaryFits(dict)
    ensures DecodeDictionary(Bytes(dict, DictionaryTokens(dict) + rest)) == Good(dict, Bytes(dict, rest))
  {
    hide Bytes, DictionaryTokens, DecodeStrings, Distinct, AllCodable;
    DictionaryRoundTrip(dict, dict, rest);
  }

  /** Decoding an encoded transition returns its operations projected to the table schema. The
  one refusal is schema 3 carrying a runtime value domain, and it is always a refusal. */
  lemma TransitionRoundTrip(dict: Dictionary, transition: Transition)
    requires TransitionFits(transition) && DictionaryFits(dict) && Fits(dict, RowTokens(transition))
    ensures DecodeTransition(Bytes(dict, FrameTokens(dict, transition.identity, RowTokens(transition))))
         == if SchemaHoldsOps(transition.identity.schema, transition.paths) then Good(CarriedTransition(transition), []) else Bad
  {
    hide Bytes, Fits, DecodeNumbers, DecodeDictionary, DecodeRows, HeaderTokens, DictionaryTokens, RowTokens;
    hide PathOpsFit, SymbolOpsFit, IdentityFits, DictionaryFits, SchemaHoldsOps, CarriedOps;
    var identity, rows := transition.identity, RowTokens(transition);
    NumbersRoundTrip(dict, identity, DictionaryTokens(dict) + rows);
    DictionaryReads(dict, rows);
    RowsRoundTrip(dict, transition);
  }

  // --- over the limits ---

  lemma CountRefused<T>(dict: Dictionary, xs: seq<T>, rest: seq<Token>)
    requires PACKED_COLLECTION_LIMIT < |xs| < U64_LIMIT
    ensures Counted(Bytes(dict, [Length(xs)] + rest)) == Bad
  {
    ReadLength(dict, xs, rest);
    hide Bytes, U64;
  }

  /** A dictionary over the limit is written and refused. */
  lemma OverfullDictionary(dict: Dictionary, identity: Identity, rows: seq<Token>)
    requires IdentityFits(identity) && PACKED_COLLECTION_LIMIT < |dict| < U64_LIMIT
    ensures DecodeTransition(Bytes(dict, FrameTokens(dict, identity, rows))) == Bad
  {
    hide Bytes, DecodeNumbers, Counted, DecodeRows, HeaderTokens, EntriesTokens, IdentityFits;
    NumbersRoundTrip(dict, identity, DictionaryTokens(dict) + rows);
    var entries := EntriesTokens(dict, []) + rows;
    assert DictionaryTokens(dict) + rows == [Length(dict)] + entries;
    CountRefused(dict, dict, entries);
  }

  /** So are path or symbol operations over it. */
  lemma OverfullRows(dict: Dictionary, transition: Transition)
    requires IdentityFits(transition.identity) && DictionaryFits(dict) && Fits(dict, RowTokens(transition))
    requires |transition.paths| < U64_LIMIT && |transition.symbols| < U64_LIMIT
    requires |transition.paths| > PACKED_COLLECTION_LIMIT || (PathOpsFit(transition.identity.mode, transition.paths) && |transition.symbols| > PACKED_COLLECTION_LIMIT)
    ensures DecodeTransition(Bytes(dict, FrameTokens(dict, transition.identity, RowTokens(transition)))) == Bad
  {
    hide Bytes, Fits, DecodeNumbers, DecodeDictionary, HeaderTokens, DictionaryTokens, RowTokens, DecodeRows;
    hide PathOpsFit, IdentityFits, DictionaryFits;
    var identity, rows := transition.identity, RowTokens(transition);
    NumbersRoundTrip(dict, identity, DictionaryTokens(dict) + rows);
    DictionaryReads(dict, rows);
    OverfullRead(dict, transition);
  }

  lemma OverfullRead(dict: Dictionary, transition: Transition)
    requires IdentityFits(transition.identity) && Fits(dict, RowTokens(transition))
    requires |transition.paths| < U64_LIMIT && |transition.symbols| < U64_LIMIT
    requires |transition.paths| > PACKED_COLLECTION_LIMIT || (PathOpsFit(transition.identity.mode, transition.paths) && |transition.symbols| > PACKED_COLLECTION_LIMIT)
    ensures var identity := transition.identity;
      DecodeRows(dict, Numbers(identity.mode, identity.schema, identity.baseGeneration, identity.targetGeneration), Bytes(dict, RowTokens(transition))) == Bad
  {
    hide Bytes, Fits, DecodeIdentity, PathRowsTokens, SymbolRowsTokens, TokenFits, DecodePathOps, DecodeSymbolOps, Counted;
    hide PathOpsFit, SchemaHoldsOps, CarriedOps, BaseFits;
    var project, token := [Text(transition.identity.projectID, 1, 0)], [Text(transition.identity.baseStateToken, 1, 0)];
    var paths, symbols := PathRowsTokens(transition.identity.schema, transition.paths), SymbolRowsTokens(transition.identity.mode, transition.symbols);
    Fits4(dict, project, token, paths, symbols);
    OneFits(dict, project[0]);
    OneFits(dict, token[0]);
    IdentityRoundTrip(dict, transition.identity, paths + symbols);
    if |transition.paths| > PACKED_COLLECTION_LIMIT {
      PathCountRefused(dict, transition, symbols);
    } else {
      PathRowsRoundTrip(dict, transition, symbols);
      SymbolCountRefused(dict, transition);
    }
  }

  lemma PathCountRefused(dict: Dictionary, transition: Transition, rest: seq<Token>)
    requires PACKED_COLLECTION_LIMIT < |transition.paths| < U64_LIMIT
    ensures DecodePathRows(dict, transition.identity, Bytes(dict, PathRowsTokens(transition.identity.schema, transition.paths) + rest)) == Bad
  {
    var ops := PathOpsTokens(transition.identity.schema, transition.paths);
    Nest2([Length(transition.paths)], ops, rest);
    CountRefused(dict, transition.paths, ops + rest);
    hide Bytes, Counted;
  }

  lemma SymbolCountRefused(dict: Dictionary, transition: Transition)
    requires PACKED_COLLECTION_LIMIT < |transition.symbols| < U64_LIMIT
    ensures DecodeSymbolRows(dict, transition.identity, Bytes(dict, SymbolRowsTokens(transition.identity.mode, transition.symbols))) == Bad
  {
    CountRefused(dict, transition.symbols, SymbolOpsTokens(transition.identity.mode, transition.symbols));
    hide Bytes, Counted;
  }

  // --- what the schemas lose ---

  lemma {:induction false} SchemaHoldsFromFour(schema: nat, ops: seq<Row<PathOp>>)
    requires AcceptedSchema(schema) && schema >= 4
    ensures SchemaHoldsOps(schema, ops)
  {
    forall k | 0 <= k < |ops| ensures SchemaHoldsOp(schema, ops[k].value) {
    }
  }

  /** From schema 15 on, nothing modelled is lost. */
  lemma CarriedWhole(schema: nat, entity: EntityFact)
    requires schema >= 15
    ensures Carried(schema, entity) == entity
  {
  }

  lemma {:induction false} CarriedOpsWhole(schema: nat, ops: seq<Row<PathOp>>)
    requires schema >= 15
    ensures CarriedOps(schema, ops) == ops
  {
    if ops != [] {
      CarriedOpsWhole(schema, ops[1..]);
      var op := ops[0].value;
      if op.entities.Replace? {
        var run := op.entities.value;
        forall k | 0 <= k < |run| ensures CarriedRun(schema, run)[k] == run[k] { CarriedWhole(schema, run[k]); }
        assert CarriedRun(schema, run) == run;
      }
      assert CarriedOp(schema, op) == op;
      assert ops == [ops[0]] + ops[1..];
    }
  }
}
