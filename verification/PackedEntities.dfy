/** One path's entity run on the packed wire, for every table schema the decoder accepts
(internal/typefacts/wire_transition_rows.go:103-319, crates/typefacts/src/v3.rs:794-1026). */
module PackedEntities {
  import opened SortedRows
  import opened Facts
  import opened Varints
  import opened PackedTokens
  import opened PackedLocations

  predicate AcceptedSchema(schema: nat) {
    3 <= schema <= 17 && schema != 10
  }

  // --- vocabularies ---

  /** `untypedCallable` joined the tag space at schema 15; before, it is written as `unknown`. */
  function CarriedCallability(schema: nat, value: Callability): Callability {
    if value == UntypedCallable && schema < 15 then Unknown else value
  }

  function CallabilityCode(schema: nat, value: Callability): nat {
    match CarriedCallability(schema, value)
    case Callable => 0
    case NonCallable => 1
    case Mixed => 2
    case Unknown => 3
    case UntypedCallable => 4
  }

  function ParseCallability(schema: nat, code: nat): Option<Callability> {
    if code == 0 then Some(Callable)
    else if code == 1 then Some(NonCallable)
    else if code == 2 then Some(Mixed)
    else if code == 3 then Some(Unknown)
    else if code == 4 && schema >= 15 then Some(UntypedCallable)
    else None
  }

  /** Booleans in consecutive bits, the first in bit 0. */
  function Pack(bits: seq<bool>): nat {
    if bits == [] then 0 else (if bits[0] then 1 else 0) + 2 * Pack(bits[1..])
  }

  function ShiftRight(n: nat, count: nat): nat {
    if count == 0 then n else ShiftRight(n / 2, count - 1)
  }

  predicate Bit(n: nat, index: nat) {
    ShiftRight(n, index) % 2 == 1
  }

  lemma {:induction false} ShiftPacked(bits: seq<bool>, count: nat)
    requires count <= |bits|
    ensures ShiftRight(Pack(bits), count) == Pack(bits[count..])
  {
    if count == 0 {
      assert bits[0..] == bits;
    } else {
      assert Pack(bits) / 2 == Pack(bits[1..]);
      ShiftPacked(bits[1..], count - 1);
      assert bits[1..][count - 1..] == bits[count..];
    }
  }

  lemma BitPacked(bits: seq<bool>, index: nat)
    requires index < |bits|
    ensures Bit(Pack(bits), index) == bits[index]
  {
    ShiftPacked(bits, index);
    PackHead(bits[index..]);
    hide ShiftRight, Pack;
  }

  lemma PackHead(bits: seq<bool>)
    requires bits != []
    ensures Pack(bits) % 2 == if bits[0] then 1 else 0
  {
    Parity(if bits[0] then 1 else 0, Pack(bits[1..]));
  }

  lemma Parity(head: nat, others: nat)
    requires head <= 1
    ensures (head + 2 * others) % 2 == head
  {
  }

  function PowerOfTwo(n: nat): nat {
    if n == 0 then 1 else 2 * PowerOfTwo(n - 1)
  }

  lemma {:induction false} PackBound(bits: seq<bool>)
    ensures Pack(bits) < PowerOfTwo(|bits|)
  {
    if bits != [] { PackBound(bits[1..]); }
  }

  lemma {:induction false} PackedZero(bits: seq<bool>)
    ensures Pack(bits) == 0 <==> forall k :: 0 <= k < |bits| ==> !bits[k]
  {
    if bits != [] {
      PackedZero(bits[1..]);
      assert forall k :: 0 < k < |bits| ==> bits[k] == bits[1..][k - 1];
    }
  }

  function DomainBits(domain: RuntimeValueDomain): nat {
    Pack([domain.callable, domain.undefined, domain.other, domain.unknown])
  }

  function ParseDomain(bits: nat): Option<RuntimeValueDomain> {
    if ShiftRight(bits, 4) != 0 then None else Some(RuntimeValueDomain(Bit(bits, 0), Bit(bits, 1), Bit(bits, 2), Bit(bits, 3)))
  }

  lemma DomainReads(domain: RuntimeValueDomain)
    ensures DomainBits(domain) < 16 && ParseDomain(DomainBits(domain)) == Some(domain)
  {
    var bits := [domain.callable, domain.undefined, domain.other, domain.unknown];
    BitPacked(bits, 0);
    BitPacked(bits, 1);
    BitPacked(bits, 2);
    BitPacked(bits, 3);
    ShiftPacked(bits, 4);
    PackBound(bits);
    assert PowerOfTwo(2) == 4 && PowerOfTwo(4) == 16;
    hide Pack, ShiftRight, Bit;
  }

  // --- optional fields, each announced by a flag ---

  datatype Flags = Flags(
    descriptor: bool, callability: bool, identity: bool, domain: bool,
    unresolved: bool, callResult: bool, tuple: bool, library: bool)

  function FlagsOf(schema: nat, entity: EntityFact): Flags {
    Flags(
      entity.typeDescriptor.Some?, entity.callability.Some?, entity.runtimeIdentity != "", entity.runtimeValueDomain.Some?,
      schema >= 5 && entity.symbolUnresolved, schema >= 7 && entity.callResultDomain.Some?,
      schema >= 11 && entity.tupleShape.Some?, schema >= 12 && entity.libraryTypes != [])
  }

  /** The fifteen flags in wire order; those of fields outside this model are clear. */
  function FlagList(flags: Flags): (bits: seq<bool>)
    ensures |bits| == 15
  {
    [flags.descriptor, false, flags.callability, false, flags.identity, flags.domain, flags.unresolved, flags.callResult,
     false, false, flags.tuple, flags.library, false, false, false]
  }

  /** How many flags a schema's decoder knows. */
  function KnownFlags(schema: nat): (known: nat)
    ensures known <= 15
  {
    if schema >= 16 then 15
    else if schema >= 14 then 14
    else if schema >= 11 then schema
    else if schema == 9 then 10
    else if schema == 8 then 9
    else if schema == 7 then 8
    else if schema == 5 || schema == 6 then 7
    else if schema == 4 then 6
    else 5
  }

  function ParseFlags(schema: nat, bits: nat): Option<Flags> {
    if ShiftRight(bits, KnownFlags(schema)) != 0 then None
    else
      var flags := Flags(Bit(bits, 0), Bit(bits, 2), Bit(bits, 4), Bit(bits, 5), Bit(bits, 6), Bit(bits, 7), Bit(bits, 10), Bit(bits, 11));
      if Pack(FlagList(flags)) == bits then Some(flags) else None
  }

  /** Only at schema 3 can a written flag be one the decoder does not know: the runtime value
  domain's, which the writer sets whatever the schema. */
  lemma FlagsParseIff(schema: nat, entity: EntityFact)
    requires AcceptedSchema(schema)
    ensures ParseFlags(schema, Pack(FlagList(FlagsOf(schema, entity))))
         == if schema == 3 && entity.runtimeValueDomain.Some? then None else Some(FlagsOf(schema, entity))
  {
    var flags := FlagsOf(schema, entity);
    FlagsRead(flags);
    FlagsKnown(schema, entity);
    hide FlagList, FlagsOf, KnownFlags, ShiftRight, Pack, Bit;
  }

  lemma FlagsRead(flags: Flags)
    ensures var bits := Pack(FlagList(flags));
      flags == Flags(Bit(bits, 0), Bit(bits, 2), Bit(bits, 4), Bit(bits, 5), Bit(bits, 6), Bit(bits, 7), Bit(bits, 10), Bit(bits, 11))
  {
    hide Pack, Bit;
    var bits := FlagList(flags);
    BitPacked(bits, 0);
    BitPacked(bits, 2);
    BitPacked(bits, 4);
    BitPacked(bits, 5);
    BitPacked(bits, 6);
    BitPacked(bits, 7);
    BitPacked(bits, 10);
    BitPacked(bits, 11);
  }

  lemma FlagsKnown(schema: nat, entity: EntityFact)
    requires AcceptedSchema(schema)
    ensures ShiftRight(Pack(FlagList(FlagsOf(schema, entity))), KnownFlags(schema)) != 0
      <==> schema == 3 && entity.runtimeValueDomain.Some?
  {
    hide Pack, ShiftRight;
    var known, bits := KnownFlags(schema), FlagList(FlagsOf(schema, entity));
    ShiftPacked(bits, known);
    PackedZero(bits[known..]);
    assert forall k :: 0 <= k < |bits| - known ==> bits[known..][k] == bits[known + k];
    if schema == 3 && entity.runtimeValueDomain.Some? { assert bits[known..][0]; }
  }

  // --- field by field ---

  function DescriptorField(entity: EntityFact): seq<Token> {
    if entity.typeDescriptor.Some? then DescriptorTokens(entity.typeDescriptor.value) else []
  }

  function CallabilityField(schema: nat, entity: EntityFact): seq<Token> {
    if entity.callability.Some? then [Num(CallabilityCode(schema, entity.callability.value))] else []
  }

  function IdentityField(entity: EntityFact): seq<Token> {
    if entity.runtimeIdentity != "" then [Text(entity.runtimeIdentity, 1, 0)] else []
  }

  function DomainField(present: bool, domain: Option<RuntimeValueDomain>): seq<Token> {
    if present && domain.Some? then [Num(DomainBits(domain.value))] else []
  }

  /** The fixed slot count with the rest flag in bit 0; the exact length joined at schema 13. */
  function TupleTokens(schema: nat, shape: TupleShape): seq<Token> {
    [Num(Unsigned(shape.fixedLength * 2) + if shape.hasRest then 1 else 0),
     Num(CallabilityCode(schema, shape.elementZero)), Num(Unsigned(shape.minimumParameters))]
    + (if schema >= 13 then [Num(if shape.exactLength.Some? then Unsigned(shape.exactLength.value + 1) else 0)] else [])
  }

  function TupleField(schema: nat, entity: EntityFact): seq<Token> {
    if schema >= 11 && entity.tupleShape.Some? then TupleTokens(schema, entity.tupleShape.value) else []
  }

  function TextsTokens(texts: seq<string>): seq<Token> {
    if texts == [] then [] else [Text(texts[0], 1, 0)] + TextsTokens(texts[1..])
  }

  function LibraryField(schema: nat, entity: EntityFact): seq<Token> {
    if schema >= 12 && entity.libraryTypes != [] then [Length(entity.libraryTypes)] + TextsTokens(entity.libraryTypes) else []
  }

  function DecodeOptionalDescriptor(dict: Dictionary, present: bool, input: seq<byte>): Parsed<Option<TypeDescriptor>> {
    if !present then Good(None, input)
    else
      var descriptor :- DecodeDescriptor(dict, input);
      Good(Some(descriptor.0), descriptor.1)
  }

  function DecodeCallability(schema: nat, input: seq<byte>): Parsed<Callability> {
    var code :- U64(input);
    match ParseCallability(schema, code.0)
    case None => Bad
    case Some(value) => Good(value, code.1)
  }

  function DecodeOptionalCallability(schema: nat, present: bool, input: seq<byte>): Parsed<Option<Callability>> {
    if !present then Good(None, input)
    else
      var value :- DecodeCallability(schema, input);
      Good(Some(value.0), value.1)
  }

  function DecodeIdentity(dict: Dictionary, present: bool, input: seq<byte>): Parsed<string> {
    if present then StringIndex(dict, input) else Good("", input)
  }

  function DecodeDomain(present: bool, input: seq<byte>): Parsed<Option<RuntimeValueDomain>> {
    if !present then Good(None, input)
    else
      var bits :- U64(input);
      match ParseDomain(bits.0)
      case None => Bad
      case Some(domain) => Good(Some(domain), bits.1)
  }

  const U32_LIMIT: nat := 0x1_0000_0000
  const FIXED_LENGTH_LIMIT: nat := 0x1000_0000

  function DecodeExactLength(schema: nat, input: seq<byte>): Parsed<Option<int>> {
    if schema < 13 then Good(None, input)
    else
      var encoded :- U64(input);
      if encoded.0 == 0 then Good(None, encoded.1)
      else if encoded.0 - 1 >= U32_LIMIT - 1 then Bad
      else Good(Some(encoded.0 - 1), encoded.1)
  }

  function DecodeTuple(schema: nat, input: seq<byte>): Parsed<TupleShape> {
    var packed :- U64(input);
    var elementZero :- DecodeCallability(schema, packed.1);
    var minimum :- U64(elementZero.1);
    if minimum.0 >= U32_LIMIT then Bad
    else
      var exact :- DecodeExactLength(schema, minimum.1);
      if packed.0 / 2 >= FIXED_LENGTH_LIMIT then Bad
      else Good(TupleShape(packed.0 / 2, packed.0 % 2 == 1, elementZero.0, minimum.0, exact.0), exact.1)
  }

  function DecodeOptionalTuple(schema: nat, present: bool, input: seq<byte>): Parsed<Option<TupleShape>> {
    if !present then Good(None, input)
    else
      var shape :- DecodeTuple(schema, input);
      Good(Some(shape.0), shape.1)
  }

  function DecodeTexts(dict: Dictionary, count: nat, input: seq<byte>): Parsed<seq<string>> {
    if count == 0 then Good([], input)
    else
      var first :- StringIndex(dict, input);
      var others :- DecodeTexts(dict, count - 1, first.1);
      Good([first.0] + others.0, others.1)
  }

  function DecodeLibrary(dict: Dictionary, present: bool, input: seq<byte>): Parsed<seq<string>> {
    if !present then Good([], input)
    else
      var count :- U64(input);
      DecodeTexts(dict, count.0, count.1)
  }

  // --- what a schema carries ---

  function CarriedTuple(schema: nat, shape: TupleShape): TupleShape {
    shape.(elementZero := CarriedCallability(schema, shape.elementZero),
           exactLength := if schema >= 13 then shape.exactLength else None)
  }

  /** The entity projected to the vocabulary of the schema. */
  function Carried(schema: nat, entity: EntityFact): EntityFact {
    entity.(
      symbolUnresolved := schema >= 5 && entity.symbolUnresolved,
      callability := MapOption(value => CarriedCallability(schema, value), entity.callability),
      callResultDomain := if schema >= 7 then entity.callResultDomain else None,
      tupleShape := if schema >= 11 then MapOption(shape => CarriedTuple(schema, shape), entity.tupleShape) else None,
      libraryTypes := if schema >= 12 then entity.libraryTypes else [])
  }

  predicate TupleFits(shape: TupleShape) {
    && 0 <= shape.fixedLength < FIXED_LENGTH_LIMIT && 0 <= shape.minimumParameters < U32_LIMIT
    && (shape.exactLength.Some? ==> 0 <= shape.exactLength.value < U32_LIMIT - 1)
  }

  /** What the writer validates and the decoder's integer widths hold. */
  predicate EntityFits(path: Path, entity: EntityFact) {
    && entity.location.path == path && Placed(entity.location)
    && (entity.symbol == "" || !entity.symbolUnresolved)
    && (entity.typeDescriptor.Some? ==> DeclarationsPlaced(entity.typeDescriptor.value.aliasDeclarations))
    && (entity.tupleShape.Some? ==> TupleFits(entity.tupleShape.value))
    && |entity.libraryTypes| < U64_LIMIT
  }

  lemma CodeReads(schema: nat, value: Callability)
    ensures CallabilityCode(schema, value) < 5
    ensures ParseCallability(schema, CallabilityCode(schema, value)) == Some(CarriedCallability(schema, value))
  {
  }

  lemma CallabilityRoundTrip(dict: Dictionary, schema: nat, value: Callability, rest: seq<Token>)
    ensures DecodeCallability(schema, Bytes(dict, [Num(CallabilityCode(schema, value))] + rest))
         == Good(CarriedCallability(schema, value), Bytes(dict, rest))
  {
    hide Bytes, U64, ParseCallability, CallabilityCode;
    CodeReads(schema, value);
    ReadNum(dict, CallabilityCode(schema, value), rest);
  }

  lemma DescriptorFieldRoundTrip(dict: Dictionary, schema: nat, path: Path, entity: EntityFact, rest: seq<Token>)
    requires EntityFits(path, entity) && Fits(dict, DescriptorField(entity))
    ensures DecodeOptionalDescriptor(dict, FlagsOf(schema, entity).descriptor, Bytes(dict, DescriptorField(entity) + rest))
         == Good(entity.typeDescriptor, Bytes(dict, rest))
  {
    hide Bytes, Fits, DecodeDescriptor, DescriptorTokens;
    if entity.typeDescriptor.Some? {
      DescriptorRoundTrip(dict, entity.typeDescriptor.value, rest);
    } else {
      assert DescriptorField(entity) + rest == rest;
    }
  }

  lemma CallabilityFieldRoundTrip(dict: Dictionary, schema: nat, entity: EntityFact, rest: seq<Token>)
    ensures DecodeOptionalCallability(schema, FlagsOf(schema, entity).callability, Bytes(dict, CallabilityField(schema, entity) + rest))
         == Good(Carried(schema, entity).callability, Bytes(dict, rest))
  {
    hide Bytes, DecodeCallability, CallabilityCode, CarriedCallability;
    if entity.callability.Some? {
      CallabilityRoundTrip(dict, schema, entity.callability.value, rest);
    } else {
      assert CallabilityField(schema, entity) + rest == rest;
    }
  }

  lemma IdentityFieldRoundTrip(dict: Dictionary, schema: nat, entity: EntityFact, rest: seq<Token>)
    requires Fits(dict, IdentityField(entity))
    ensures DecodeIdentity(dict, FlagsOf(schema, entity).identity, Bytes(dict, IdentityField(entity) + rest))
         == Good(entity.runtimeIdentity, Bytes(dict, rest))
  {
    hide Bytes, StringIndex;
    if entity.runtimeIdentity != "" {
      assert TokenFits(dict, IdentityField(entity)[0]);
      ReadText(dict, entity.runtimeIdentity, rest);
    } else {
      assert IdentityField(entity) + rest == rest;
    }
  }

  lemma DomainFieldRoundTrip(dict: Dictionary, present: bool, domain: Option<RuntimeValueDomain>, rest: seq<Token>)
    ensures DecodeDomain(present && domain.Some?, Bytes(dict, DomainField(present, domain) + rest))
         == Good(if present then domain else None, Bytes(dict, rest))
  {
    hide Bytes, U64, ParseDomain, DomainBits;
    if present && domain.Some? {
      DomainReads(domain.value);
      ReadNum(dict, DomainBits(domain.value), rest);
    } else {
      assert DomainField(present, domain) + rest == rest;
    }
  }

  lemma TupleRoundTrip(dict: Dictionary, schema: nat, shape: TupleShape, rest: seq<Token>)
    requires TupleFits(shape)
    ensures DecodeTuple(schema, Bytes(dict, TupleTokens(schema, shape) + rest)) == Good(CarriedTuple(schema, shape), Bytes(dict, rest))
  {
    hide Bytes, U64, DecodeCallability, CallabilityCode, CarriedCallability, DecodeExactLength;
    var packed: nat := shape.fixedLength * 2 + if shape.hasRest then 1 else 0;
    var minimum: nat := shape.minimumParameters;
    var exact := ExactTokens(schema, shape);
    var tail := [Num(minimum)] + (exact + rest);
    var zero := [Num(CallabilityCode(schema, shape.elementZero))];
    assert TupleTokens(schema, shape) + rest == [Num(packed)] + (zero + tail);
    ReadNum(dict, packed, zero + tail);
    CallabilityRoundTrip(dict, schema, shape.elementZero, tail);
    ReadNum(dict, minimum, exact + rest);
    ExactRoundTrip(dict, schema, shape, rest);
  }

  function ExactTokens(schema: nat, shape: TupleShape): seq<Token> {
    if schema >= 13 then [Num(if shape.exactLength.Some? then Unsigned(shape.exactLength.value + 1) else 0)] else []
  }

  lemma ExactRoundTrip(dict: Dictionary, schema: nat, shape: TupleShape, rest: seq<Token>)
    requires TupleFits(shape)
    ensures DecodeExactLength(schema, Bytes(dict, ExactTokens(schema, shape) + rest))
         == Good(CarriedTuple(schema, shape).exactLength, Bytes(dict, rest))
  {
    hide Bytes, U64;
    if schema >= 13 {
      ReadNum(dict, ExactTokens(schema, shape)[0].n, rest);
    } else {
      assert ExactTokens(schema, shape) + rest == rest;
    }
  }

  lemma TupleFieldRoundTrip(dict: Dictionary, schema: nat, path: Path, entity: EntityFact, rest: seq<Token>)
    requires EntityFits(path, entity)
    ensures DecodeOptionalTuple(schema, FlagsOf(schema, entity).tuple, Bytes(dict, TupleField(schema, entity) + rest))
         == Good(Carried(schema, entity).tupleShape, Bytes(dict, rest))
  {
    hide Bytes, DecodeTuple, TupleTokens, CarriedTuple, TupleFits;
    if schema >= 11 && entity.tupleShape.Some? {
      TupleRoundTrip(dict, schema, entity.tupleShape.value, rest);
    } else {
      assert TupleField(schema, entity) + rest == rest;
    }
  }

  lemma {:induction false} TextsRoundTrip(dict: Dictionary, texts: seq<string>, rest: seq<Token>)
    requires Fits(dict, TextsTokens(texts))
    ensures DecodeTexts(dict, |texts|, Bytes(dict, TextsTokens(texts) + rest)) == Good(texts, Bytes(dict, rest))
  {
    hide Bytes, StringIndex, TokenFits;
    if texts == [] {
      assert TextsTokens(texts) + rest == rest;
    } else {
      var first, others := [Text(texts[0], 1, 0)], TextsTokens(texts[1..]);
      FitsConcat(dict, first, others);
      assert TextsTokens(texts) + rest == first + (others + rest);
      assert TokenFits(dict, first[0]);
      ReadText(dict, texts[0], others + rest);
      TextsRoundTrip(dict, texts[1..], rest);
      assert texts == [texts[0]] + texts[1..];
    }
  }

  lemma LibraryFieldRoundTrip(dict: Dictionary, schema: nat, entity: EntityFact, rest: seq<Token>)
    requires |entity.libraryTypes| < U64_LIMIT && Fits(dict, LibraryField(schema, entity))
    ensures DecodeLibrary(dict, FlagsOf(schema, entity).library, Bytes(dict, LibraryField(schema, entity) + rest))
         == Good(Carried(schema, entity).libraryTypes, Bytes(dict, rest))
  {
    hide Bytes, U64, TextsTokens, DecodeTexts;
    if schema >= 12 && entity.libraryTypes != [] {
      var count, texts := [Length(entity.libraryTypes)], TextsTokens(entity.libraryTypes);
      FitsConcat(dict, count, texts);
      assert LibraryField(schema, entity) + rest == count + (texts + rest);
      ReadLength(dict, entity.libraryTypes, texts + rest);
      TextsRoundTrip(dict, entity.libraryTypes, rest);
    } else {
      assert LibraryField(schema, entity) + rest == rest;
    }
  }

  // --- one entity ---

  function FieldsTokens(schema: nat, entity: EntityFact): seq<Token> {
    DescriptorField(entity) + (CallabilityField(schema, entity) + (IdentityField(entity) + TailTokens(schema, entity)))
  }

  function TailTokens(schema: nat, entity: EntityFact): seq<Token> {
    DomainField(true, entity.runtimeValueDomain)
    + (DomainField(schema >= 7, entity.callResultDomain) + (TupleField(schema, entity) + LibraryField(schema, entity)))
  }

  function HeadTokens(schema: nat, entity: EntityFact, previousStart: int): seq<Token> {
    [Difference(previousStart, entity.location.startByte), Num(Unsigned(entity.location.endByte - entity.location.startByte)),
     Text(entity.symbol, 1, 0), Num(Pack(FlagList(FlagsOf(schema, entity))))]
  }

  function EntityTokens(schema: nat, entity: EntityFact, previousStart: int): seq<Token> {
    HeadTokens(schema, entity, previousStart) + FieldsTokens(schema, entity)
  }

  function EntityListTokens(schema: nat, entities: seq<EntityFact>, previousStart: int): seq<Token> {
    if entities == [] then []
    else
      EntityTokens(schema, entities[0], previousStart)
      + EntityListTokens(schema, entities[1..], entities[0].location.startByte)
  }

  /** `writeWireTransitionEntityRun`. */
  function RunTokens(schema: nat, entities: seq<EntityFact>): seq<Token> {
    [Length(entities)] + EntityListTokens(schema, entities, 0)
  }

  datatype Head = Head(location: Location, symbol: SymbolID, flags: Flags)

  function DecodeHead(dict: Dictionary, schema: nat, path: Path, input: seq<byte>, previousStart: int): Parsed<Head> {
    var code :- U64(input);
    match AddSigned(previousStart, code.0)
    case None => Bad
    case Some(start) =>
      var location :- DecodeEnd(path, start, code.1);
      var symbol :- StringIndex(dict, location.1);
      var bits :- U64(symbol.1);
      match ParseFlags(schema, bits.0)
      case None => Bad
      case Some(flags) => Good(Head(location.0, symbol.0, flags), bits.1)
  }

  datatype Tail = Tail(
    domain: Option<RuntimeValueDomain>, callResult: Option<RuntimeValueDomain>, tuple: Option<TupleShape>, library: seq<string>)

  function DecodeTail(dict: Dictionary, schema: nat, flags: Flags, input: seq<byte>): Parsed<Tail> {
    var domain :- DecodeDomain(flags.domain, input);
    var callResult :- DecodeDomain(flags.callResult, domain.1);
    var tuple :- DecodeOptionalTuple(schema, flags.tuple, callResult.1);
    var library :- DecodeLibrary(dict, flags.library, tuple.1);
    Good(Tail(domain.0, callResult.0, tuple.0, library.0), library.1)
  }

  function DecodeFields(dict: Dictionary, schema: nat, head: Head, input: seq<byte>): Parsed<EntityFact> {
    var descriptor :- DecodeOptionalDescriptor(dict, head.flags.descriptor, input);
    var callability :- DecodeOptionalCallability(schema, head.flags.callability, descriptor.1);
    var identity :- DecodeIdentity(dict, head.flags.identity, callability.1);
    var tail :- DecodeTail(dict, schema, head.flags, identity.1);
    if head.flags.unresolved && head.symbol != "" then Bad
    else
      Good(EntityFact(head.location, head.symbol, head.flags.unresolved, descriptor.0, callability.0, identity.0,
                      tail.0.domain, tail.0.callResult, tail.0.tuple, tail.0.library), tail.1)
  }

  function DecodeEntity(dict: Dictionary, schema: nat, path: Path, input: seq<byte>, previousStart: int): Parsed<EntityFact> {
    var head :- DecodeHead(dict, schema, path, input, previousStart);
    DecodeFields(dict, schema, head.0, head.1)
  }

  function DecodeEntityList(dict: Dictionary, schema: nat, path: Path, input: seq<byte>, count: nat, previousStart: int): Parsed<seq<EntityFact>>
    decreases count
  {
    if count == 0 then Good([], input)
    else
      var first :- DecodeEntity(dict, schema, path, input, previousStart);
      var others :- DecodeEntityList(dict, schema, path, first.1, count - 1, first.0.location.startByte);
      Good([first.0] + others.0, others.1)
  }

  /** `decode_entity_run`. */
  function DecodeRun(dict: Dictionary, schema: nat, path: Path, input: seq<byte>): Parsed<seq<EntityFact>> {
    var count :- Counted(input);
    DecodeEntityList(dict, schema, path, count.1, count.0, 0)
  }

  lemma TailRoundTrip(dict: Dictionary, schema: nat, path: Path, entity: EntityFact, rest: seq<Token>)
    requires EntityFits(path, entity) && Fits(dict, TailTokens(schema, entity))
    ensures var carried := Carried(schema, entity);
      DecodeTail(dict, schema, FlagsOf(schema, entity), Bytes(dict, TailTokens(schema, entity) + rest))
      == Good(Tail(carried.runtimeValueDomain, carried.callResultDomain, carried.tupleShape, carried.libraryTypes), Bytes(dict, rest))
  {
    assert |entity.libraryTypes| < U64_LIMIT;
    var domain, callResult := DomainField(true, entity.runtimeValueDomain), DomainField(schema >= 7, entity.callResultDomain);
    var tuple, library := TupleField(schema, entity), LibraryField(schema, entity);
    hide Bytes, Fits, TupleField, LibraryField, DomainField, EntityFits, DecodeDomain, DecodeOptionalTuple, DecodeLibrary;
    Fits4(dict, domain, callResult, tuple, library);
    Nest4(domain, callResult, tuple, library, rest);
    DomainFieldRoundTrip(dict, true, entity.runtimeValueDomain, callResult + (tuple + (library + rest)));
    DomainFieldRoundTrip(dict, schema >= 7, entity.callResultDomain, tuple + (library + rest));
    TupleFieldRoundTrip(dict, schema, path, entity, library + rest);
    LibraryFieldRoundTrip(dict, schema, entity, rest);
  }

  lemma CarriedKeeps(schema: nat, path: Path, entity: EntityFact)
    requires EntityFits(path, entity)
    ensures var carried, flags := Carried(schema, entity), FlagsOf(schema, entity);
      && carried.location == entity.location && carried.symbol == entity.symbol && carried.symbolUnresolved == flags.unresolved
      && carried.typeDescriptor == entity.typeDescriptor && carried.runtimeIdentity == entity.runtimeIdentity
      && (flags.unresolved ==> entity.symbol == "")
  {
    hide Placed, DeclarationsPlaced, TupleFits, CarriedTuple, CarriedCallability;
  }

  lemma FieldsRoundTrip(dict: Dictionary, schema: nat, path: Path, entity: EntityFact, rest: seq<Token>)
    requires EntityFits(path, entity) && Fits(dict, FieldsTokens(schema, entity))
    ensures DecodeFields(dict, schema, Head(entity.location, entity.symbol, FlagsOf(schema, entity)), Bytes(dict, FieldsTokens(schema, entity) + rest))
         == Good(Carried(schema, entity), Bytes(dict, rest))
  {
    var descriptor, callability := DescriptorField(entity), CallabilityField(schema, entity);
    var identity, tail := IdentityField(entity), TailTokens(schema, entity);
    hide Bytes, Fits, DescriptorField, CallabilityField, IdentityField, TailTokens, DecodeTail;
    hide DecodeOptionalDescriptor, DecodeOptionalCallability, DecodeIdentity, Carried, EntityFits, FlagsOf;
    CarriedKeeps(schema, path, entity);
    Fits4(dict, descriptor, callability, identity, tail);
    Nest4(descriptor, callability, identity, tail, rest);
    DescriptorFieldRoundTrip(dict, schema, path, entity, callability + (identity + (tail + rest)));
    CallabilityFieldRoundTrip(dict, schema, entity, identity + (tail + rest));
    IdentityFieldRoundTrip(dict, schema, entity, tail + rest);
    TailRoundTrip(dict, schema, path, entity, rest);
  }

  predicate SchemaHolds(schema: nat, entity: EntityFact) {
    AcceptedSchema(schema) && (schema == 3 ==> entity.runtimeValueDomain.None?)
  }

  lemma HoldsIs(schema: nat, entity: EntityFact)
    requires AcceptedSchema(schema)
    ensures SchemaHolds(schema, entity) <==> !(schema == 3 && entity.runtimeValueDomain.Some?)
  {
  }

  lemma HeadRoundTrip(dict: Dictionary, schema: nat, path: Path, entity: EntityFact, previousStart: int, rest: seq<Token>)
    requires EntityFits(path, entity) && AcceptedSchema(schema) && 0 <= previousStart < I64_LIMIT
    requires Fits(dict, HeadTokens(schema, entity, previousStart))
    ensures DecodeHead(dict, schema, path, Bytes(dict, HeadTokens(schema, entity, previousStart) + rest), previousStart)
         == if SchemaHolds(schema, entity) then Good(Head(entity.location, entity.symbol, FlagsOf(schema, entity)), Bytes(dict, rest)) else Bad
  {
    hide Bytes, Fits, U64, StringIndex, ParseFlags, AddSigned, FlagsOf, Pack, FlagList, DecodeEnd, Unsigned, IndexOf, ZigZag, Encode;
    hide DeclarationsPlaced, TupleFits, KnownFlags, SchemaHolds;
    var tokens := HeadTokens(schema, entity, previousStart);
    var start, length, symbol, bits := tokens[0], tokens[1], tokens[2], tokens[3];
    Nest4([start], [length], [symbol], [bits], rest);
    assert tokens == [start] + ([length] + ([symbol] + [bits]));
    TextFits(dict, tokens, 2);
    TextFits(dict, tokens, 3);
    DifferenceReads(previousStart, entity.location.startByte);
    FlagsParseIff(schema, entity);
    HoldsIs(schema, entity);
    ReadNum(dict, start.n, [length] + ([symbol] + ([bits] + rest)));
    EndReads(dict, entity.location, [symbol] + ([bits] + rest));
    ReadText(dict, entity.symbol, [bits] + rest);
    ReadNum(dict, bits.n, rest);
  }

  /** One entity comes back as its schema carries it; at schema 3 exactly when it has no runtime value domain. */
  lemma EntityRoundTrip(dict: Dictionary, schema: nat, path: Path, entity: EntityFact, previousStart: int, rest: seq<Token>)
    requires EntityFits(path, entity) && AcceptedSchema(schema) && 0 <= previousStart < I64_LIMIT
    requires Fits(dict, EntityTokens(schema, entity, previousStart))
    ensures DecodeEntity(dict, schema, path, Bytes(dict, EntityTokens(schema, entity, previousStart) + rest), previousStart)
         == if SchemaHolds(schema, entity) then Good(Carried(schema, entity), Bytes(dict, rest)) else Bad
  {
    var head, fields := HeadTokens(schema, entity, previousStart), FieldsTokens(schema, entity);
    hide Bytes, Fits, HeadTokens, FieldsTokens, DecodeHead, DecodeFields, FlagsOf, Carried, SchemaHolds, EntityFits;
    FitsConcat(dict, head, fields);
    Nest2(head, fields, rest);
    HeadRoundTrip(dict, schema, path, entity, previousStart, fields + rest);
    FieldsRoundTrip(dict, schema, path, entity, rest);
  }

  ghost predicate RunFits(path: Path, entities: seq<EntityFact>) {
    |entities| <= PACKED_COLLECTION_LIMIT && forall k :: 0 <= k < |entities| ==> EntityFits(path, entities[k])
  }

  function CarriedRun(schema: nat, entities: seq<EntityFact>): (carried: seq<EntityFact>)
    ensures |carried| == |entities|
    ensures forall k :: 0 <= k < |entities| ==> carried[k] == Carried(schema, entities[k])
  {
    if entities == [] then [] else [Carried(schema, entities[0])] + CarriedRun(schema, entities[1..])
  }

  ghost predicate SchemaHoldsRun(schema: nat, entities: seq<EntityFact>) {
    AcceptedSchema(schema) && forall k :: 0 <= k < |entities| ==> SchemaHolds(schema, entities[k])
  }

  lemma {:induction false} EntityListRoundTrip(dict: Dictionary, schema: nat, path: Path, entities: seq<EntityFact>, previousStart: int, rest: seq<Token>)
    requires RunFits(path, entities) && AcceptedSchema(schema) && 0 <= previousStart < I64_LIMIT
    requires Fits(dict, EntityListTokens(schema, entities, previousStart))
    ensures DecodeEntityList(dict, schema, path, Bytes(dict, EntityListTokens(schema, entities, previousStart) + rest), |entities|, previousStart)
         == if SchemaHoldsRun(schema, entities) then Good(CarriedRun(schema, entities), Bytes(dict, rest)) else Bad
  {
    hide Bytes, Fits, DecodeEntity, EntityTokens, SchemaHolds, Carried;
    var tokens := EntityListTokens(schema, entities, previousStart);
    if entities == [] {
      assert tokens + rest == rest;
    } else {
      var entity := entities[0];
      var start := entity.location.startByte;
      var first, others := EntityTokens(schema, entity, previousStart), EntityListTokens(schema, entities[1..], start);
      FitsConcat(dict, first, others);
      assert tokens + rest == first + (others + rest);
      assert EntityFits(path, entity);
      EntityRoundTrip(dict, schema, path, entity, previousStart, others + rest);
      EntityListRoundTrip(dict, schema, path, entities[1..], start, rest);
      CarriedPlace(schema, entity);
      HoldsSplit(schema, entities);
      hide EntityFits;
    }
  }

  lemma CarriedPlace(schema: nat, entity: EntityFact)
    ensures Carried(schema, entity).location == entity.location
  {
  }

  lemma HoldsSplit(schema: nat, entities: seq<EntityFact>)
    requires entities != [] && AcceptedSchema(schema)
    ensures SchemaHoldsRun(schema, entities) <==> SchemaHolds(schema, entities[0]) && SchemaHoldsRun(schema, entities[1..])
  {
    hide SchemaHolds;
    assert forall k :: 0 < k < |entities| ==> entities[k] == entities[1..][k - 1];
  }

  /** A run decodes to its projection exactly when the schema knows every flag it sets. */
  lemma RunRoundTrip(dict: Dictionary, schema: nat, path: Path, entities: seq<EntityFact>, rest: seq<Token>)
    requires RunFits(path, entities) && AcceptedSchema(schema) && Fits(dict, RunTokens(schema, entities))
    ensures DecodeRun(dict, schema, path, Bytes(dict, RunTokens(schema, entities) + rest))
         == if SchemaHoldsRun(schema, entities) then Good(CarriedRun(schema, entities), Bytes(dict, rest)) else Bad
  {
    hide Bytes, Fits, Counted, DecodeEntityList, EntityListTokens, SchemaHoldsRun, CarriedRun;
    var list := EntityListTokens(schema, entities, 0);
    FitsConcat(dict, [Length(entities)], list);
    assert RunTokens(schema, entities) + rest == [Length(entities)] + (list + rest);
    ReadLength(dict, entities, list + rest);
    EntityListRoundTrip(dict, schema, path, entities, 0, rest);
  }
}
