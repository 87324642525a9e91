/** Writing entity runs, files, path and symbol operations
(internal/typefacts/wire_transition_rows.go:43-319,476-585). Each writer either refuses what
the source refuses or appends exactly the tokens of its row. */
module PackedRowWriters {
  import opened Order
  import opened SortedRows
  import opened Facts
  import opened PathTable
  import opened Varints
  import opened PackedTokens
  import opened PackedLocations
  import opened PackedEntities
  import opened PackedPathOps
  import opened PackedSymbolOps
  import opened PackedWriters
  import opened RetainedSymbols

  // --- what the writers refuse ---

  predicate TupleWritable(shape: TupleShape) {
    shape.fixedLength >= 0 && shape.minimumParameters >= 0 && (shape.exactLength.Some? ==> shape.exactLength.value >= 0)
  }

  predicate LocationWritable(location: Location) {
    0 <= location.startByte <= location.endByte
  }

  predicate EntityWritable(path: Path, entity: EntityFact) {
    && entity.location.path == path && LocationWritable(entity.location)
    && (entity.symbol == "" || !entity.symbolUnresolved)
    && (entity.tupleShape.Some? ==> TupleWritable(entity.tupleShape.value))
  }

  ghost predicate RunWritable(path: Path, entities: seq<EntityFact>) {
    forall k :: 0 <= k < |entities| ==> EntityWritable(path, entities[k])
  }

  ghost predicate PathOpWritable(row: Row<PathOp>) {
    && row.key != ""
    && (row.value.entities.Replace? ==> RunWritable(row.key, row.value.entities.value))
    && (row.value.file.Replace? ==> row.value.file.value.path == row.key)
  }

  predicate SymbolOpWritable(mode: Mode, row: Row<SymbolEdit>) {
    && row.key != "" && (mode == Full ==> row.value.ReplaceSymbol?)
    && (row.value.ReplacePath? ==> row.value.path != "" && ReferencesWritable(row.value.path, row.value.references))
  }

  predicate ReferencesWritable(path: Path, references: seq<Location>) {
    forall k :: 0 <= k < |references| ==> references[k].path == path && LocationWritable(references[k])
  }

  lemma NoTokens(before: seq<Token>)
    ensures before + [] == before
  {
  }

  // --- entities ---

  method WriteHead(w: PackedWriter, schema: nat, entity: EntityFact, previousStart: int)
    requires w.Valid()
    modifies w, w.dict
    ensures w.Valid() && w.tokens == old(w.tokens) + HeadTokens(schema, entity, previousStart)
  {
    hide *;
    HeadIs(schema, entity, previousStart, w.tokens);
    w.SignedDelta(previousStart, entity.location.startByte);
    w.U64(Unsigned(entity.location.endByte - entity.location.startByte));
    w.Text(entity.symbol);
    w.U64(Pack(FlagList(FlagsOf(schema, entity))));
  }

  lemma HeadIs(schema: nat, entity: EntityFact, previousStart: int, before: seq<Token>)
    ensures before + HeadTokens(schema, entity, previousStart)
         == before + [Difference(previousStart, entity.location.startByte)]
           + [Num(Unsigned(entity.location.endByte - entity.location.startByte))]
           + [Token.Text(entity.symbol, 1, 0)] + [Num(Pack(FlagList(FlagsOf(schema, entity))))]
    ensures Pack(FlagList(FlagsOf(schema, entity))) < U64_LIMIT
  {
    hide FlagsOf, Pack, Difference, FlagList;
    FlagsSmall(FlagList(FlagsOf(schema, entity)));
  }

  lemma FlagsSmall(bits: seq<bool>)
    requires |bits| <= 15
    ensures Pack(bits) < U64_LIMIT
  {
    PackBound(bits);
    PowerSmall(|bits|);
  }

  lemma {:induction false} PowerSmall(n: nat)
    requires n <= 15
    ensures PowerOfTwo(n) <= 32768
  {
    assert PowerOfTwo(3) == 8 && PowerOfTwo(6) == 64 && PowerOfTwo(9) == 512 && PowerOfTwo(12) == 4096 && PowerOfTwo(15) == 32768;
    if n < 15 { PowerGrows(n, 15); }
  }

  lemma {:induction false} PowerGrows(n: nat, m: nat)
    requires n <= m
    ensures PowerOfTwo(n) <= PowerOfTwo(m)
    decreases m
  {
    if n < m { PowerGrows(n, m - 1); }
  }

  method WriteCallability(w: PackedWriter, schema: nat, value: Callability)
    requires w.Valid()
    modifies w, w.dict
    ensures w.Valid() && w.tokens == old(w.tokens) + [Num(CallabilityCode(schema, value))]
  {
    CodeReads(schema, value);
    hide *;
    SmallNumber(CallabilityCode(schema, value));
    w.U64(CallabilityCode(schema, value));
  }

  lemma SmallNumber(n: nat)
    requires n < 16
    ensures n < U64_LIMIT
  {
  }

  method WriteDomain(w: PackedWriter, present: bool, domain: Option<RuntimeValueDomain>)
    requires w.Valid()
    modifies w, w.dict
    ensures w.Valid() && w.tokens == old(w.tokens) + DomainField(present, domain)
  {
    hide Pack, DomainBits;
    if present && domain.Some? {
      DomainReads(domain.value);
      w.U64(DomainBits(domain.value));
    } else {
      NoTokens(w.tokens);
    }
  }

  method WriteTuple(w: PackedWriter, schema: nat, shape: TupleShape)
    requires w.Valid()
    modifies w, w.dict
    ensures w.Valid() && w.tokens == old(w.tokens) + TupleTokens(schema, shape)
  {
    hide *;
    TupleIs(schema, shape, w.tokens);
    w.U64(Unsigned(shape.fixedLength * 2) + if shape.hasRest then 1 else 0);
    WriteCallability(w, schema, shape.elementZero);
    w.U64(Unsigned(shape.minimumParameters));
    if schema >= 13 {
      w.U64(if shape.exactLength.Some? then Unsigned(shape.exactLength.value + 1) else 0);
    }
  }

  lemma TupleIs(schema: nat, shape: TupleShape, before: seq<Token>)
    ensures Unsigned(shape.fixedLength * 2) + 1 < U64_LIMIT && 0 < U64_LIMIT
    ensures var first := before + [Num(Unsigned(shape.fixedLength * 2) + if shape.hasRest then 1 else 0)]
        + [Num(CallabilityCode(schema, shape.elementZero))] + [Num(Unsigned(shape.minimumParameters))];
      before + TupleTokens(schema, shape)
      == if schema >= 13 then first + [Num(if shape.exactLength.Some? then Unsigned(shape.exactLength.value + 1) else 0)] else first
  {
    Doubled(shape.fixedLength);
    hide CallabilityCode, Unsigned;
  }

  lemma Doubled(n: int)
    ensures Unsigned(n * 2) + 1 < U64_LIMIT
  {
    var half := U64_LIMIT / 2;
    assert n == n / half * half + n % half;
    assert n * 2 == n / half * U64_LIMIT + n % half * 2;
    ModOf(n / half, n % half * 2);
  }

  lemma ModOf(q: int, r: nat)
    requires r < U64_LIMIT
    ensures (q * U64_LIMIT + r) % U64_LIMIT == r
  {
  }

  method WriteTexts(w: PackedWriter, texts: seq<string>)
    requires w.Valid()
    modifies w, w.dict
    ensures w.Valid() && w.tokens == old(w.tokens) + [Length(texts)] + TextsTokens(texts)
  {
    hide *;
    w.Count(texts);
    assert texts[0..] == texts;
    for i := 0 to |texts|
      invariant w.Valid()
      invariant w.tokens + TextsTokens(texts[i..]) == old(w.tokens) + [Length(texts)] + TextsTokens(texts)
    {
      TextsNext(texts, i, w.tokens);
      w.Text(texts[i]);
    }
    TextsEnd(texts, w.tokens);
  }

  lemma TextsNext(texts: seq<string>, i: nat, before: seq<Token>)
    requires i < |texts|
    ensures before + TextsTokens(texts[i..]) == before + [Token.Text(texts[i], 1, 0)] + TextsTokens(texts[i + 1..])
  {
    assert texts[i..][1..] == texts[i + 1..];
  }

  lemma TextsEnd(texts: seq<string>, before: seq<Token>)
    ensures before + TextsTokens(texts[|texts|..]) == before
  {
  }

  method WriteTail(w: PackedWriter, schema: nat, entity: EntityFact)
    requires w.Valid()
    modifies w, w.dict
    ensures w.Valid() && w.tokens == old(w.tokens) + TailTokens(schema, entity)
  {
    hide *;
    TailIs(schema, entity, w.tokens);
    WriteDomain(w, true, entity.runtimeValueDomain);
    WriteDomain(w, schema >= 7, entity.callResultDomain);
    TupleFieldIs(schema, entity, w.tokens);
    if schema >= 11 && entity.tupleShape.Some? {
      WriteTuple(w, schema, entity.tupleShape.value);
    }
    LibraryFieldIs(schema, entity, w.tokens);
    if schema >= 12 && entity.libraryTypes != [] {
      WriteTexts(w, entity.libraryTypes);
    }
  }

  lemma TailIs(schema: nat, entity: EntityFact, before: seq<Token>)
    ensures before + TailTokens(schema, entity)
         == before + DomainField(true, entity.runtimeValueDomain) + DomainField(schema >= 7, entity.callResultDomain)
           + TupleField(schema, entity) + LibraryField(schema, entity)
  {
    hide DomainField, TupleField, LibraryField;
  }

  lemma TupleFieldIs(schema: nat, entity: EntityFact, before: seq<Token>)
    ensures before + TupleField(schema, entity)
         == if schema >= 11 && entity.tupleShape.Some? then before + TupleTokens(schema, entity.tupleShape.value) else before
  {
    hide TupleTokens;
  }

  lemma LibraryFieldIs(schema: nat, entity: EntityFact, before: seq<Token>)
    ensures before + LibraryField(schema, entity)
         == if schema >= 12 && entity.libraryTypes != [] then before + [Length(entity.libraryTypes)] + TextsTokens(entity.libraryTypes) else before
  {
    hide TextsTokens, Length;
  }

  method WriteFields(w: PackedWriter, schema: nat, entity: EntityFact)
    requires w.Valid()
    modifies w, w.dict
    ensures w.Valid() && w.tokens == old(w.tokens) + FieldsTokens(schema, entity)
  {
    hide *;
    FieldsAre(schema, entity, w.tokens);
    DescriptorFieldIs(entity, w.tokens);
    if entity.typeDescriptor.Some? {
      w.InternalTypeDescriptor(entity.typeDescriptor.value);
    }
    CallabilityFieldIs(schema, entity, w.tokens);
    if entity.callability.Some? {
      WriteCallability(w, schema, entity.callability.value);
    }
    IdentityFieldIs(entity, w.tokens);
    if entity.runtimeIdentity != "" {
      w.Text(entity.runtimeIdentity);
    }
    WriteTail(w, schema, entity);
  }

  lemma FieldsAre(schema: nat, entity: EntityFact, before: seq<Token>)
    ensures before + FieldsTokens(schema, entity)
         == before + DescriptorField(entity) + CallabilityField(schema, entity) + IdentityField(entity) + TailTokens(schema, entity)
  {
    hide DescriptorField, CallabilityField, IdentityField, TailTokens;
  }

  lemma DescriptorFieldIs(entity: EntityFact, before: seq<Token>)
    ensures before + DescriptorField(entity)
         == if entity.typeDescriptor.Some? then before + DescriptorTokens(entity.typeDescriptor.value) else before
  {
    hide DescriptorTokens;
  }

  lemma CallabilityFieldIs(schema: nat, entity: EntityFact, before: seq<Token>)
    ensures before + CallabilityField(schema, entity)
         == if entity.callability.Some? then before + [Num(CallabilityCode(schema, entity.callability.value))] else before
  {
    hide CallabilityCode;
  }

  lemma IdentityFieldIs(entity: EntityFact, before: seq<Token>)
    ensures before + IdentityField(entity)
         == if entity.runtimeIdentity != "" then before + [Token.Text(entity.runtimeIdentity, 1, 0)] else before
  {
  }

  /** `writeWireTransitionEntityRun`. */
  method WriteEntityRun(w: PackedWriter, path: Path, entities: seq<EntityFact>, schema: nat) returns (ok: bool)
    requires w.Valid()
    modifies w, w.dict
    ensures w.Valid() && (ok <==> RunWritable(path, entities))
    ensures ok ==> w.tokens == old(w.tokens) + RunTokens(schema, entities)
  {
    hide *;
    w.Count(entities);
    var previousStart := 0;
    RunStart(schema, entities, old(w.tokens));
    WritableStart(path, entities);
    for i := 0 to |entities|
      invariant w.Valid() && RunWritable(path, entities[..i])
      invariant w.tokens + EntityListTokens(schema, entities[i..], previousStart) == old(w.tokens) + RunTokens(schema, entities)
    {
      WritableNext(path, entities, i);
      EntityWritableIs(path, entities[i]);
      var entity := entities[i];
      if entity.location.path != path || entity.location.startByte < 0 || entity.location.endByte < entity.location.startByte
        || (entity.symbol != "" && entity.symbolUnresolved)
        || (entity.tupleShape.Some? && !TupleWritable(entity.tupleShape.value))
      {
        return false;
      }
      RunNext(schema, entities, i, previousStart, w.tokens);
      WriteHead(w, schema, entity, previousStart);
      WriteFields(w, schema, entity);
      previousStart := entity.location.startByte;
    }
    assert entities[..|entities|] == entities;
    RunEnd(schema, entities, previousStart, w.tokens);
    ok := true;
  }

  lemma EntityWritableIs(path: Path, entity: EntityFact)
    ensures EntityWritable(path, entity) <==> (
      && entity.location.path == path && 0 <= entity.location.startByte <= entity.location.endByte
      && !(entity.symbol != "" && entity.symbolUnresolved)
      && !(entity.tupleShape.Some? && !TupleWritable(entity.tupleShape.value)))
  {
  }

  lemma WritableStart(path: Path, entities: seq<EntityFact>)
    ensures RunWritable(path, entities[..0])
  {
  }

  lemma WritableNext(path: Path, entities: seq<EntityFact>, i: nat)
    requires i < |entities| && RunWritable(path, entities[..i])
    ensures RunWritable(path, entities[..i + 1]) <==> EntityWritable(path, entities[i])
    ensures !EntityWritable(path, entities[i]) ==> !RunWritable(path, entities)
  {
    hide EntityWritable;
    if EntityWritable(path, entities[i]) {
      var more := entities[..i + 1];
      forall k | 0 <= k < |more| ensures EntityWritable(path, more[k]) {
        if k < i { assert more[k] == entities[..i][k]; }
      }
    } else {
      assert entities[..i + 1][i] == entities[i];
    }
  }

  lemma RunStart(schema: nat, entities: seq<EntityFact>, before: seq<Token>)
    ensures before + [Length(entities)] + EntityListTokens(schema, entities[0..], 0) == before + RunTokens(schema, entities)
  {
    assert entities[0..] == entities;
  }

  lemma RunNext(schema: nat, entities: seq<EntityFact>, i: nat, previousStart: int, before: seq<Token>)
    requires i < |entities|
    ensures before + EntityListTokens(schema, entities[i..], previousStart)
         == before + HeadTokens(schema, entities[i], previousStart) + FieldsTokens(schema, entities[i])
           + EntityListTokens(schema, entities[i + 1..], entities[i].location.startByte)
  {
    hide HeadTokens, FieldsTokens;
    assert entities[i..][1..] == entities[i + 1..];
  }

  lemma RunEnd(schema: nat, entities: seq<EntityFact>, previousStart: int, before: seq<Token>)
    ensures before + EntityListTokens(schema, entities[|entities|..], previousStart) == before
  {
  }

  // --- files ---

  /** `writeWireTransitionFileBody`. */
  method WriteFileBody(w: PackedWriter, file: FileFact)
    requires w.Valid()
    modifies w, w.dict
    ensures w.Valid() && w.tokens == old(w.tokens) + FileTokens(file)
  {
    hide *;
    SmallNumber(0);
    SmallNumber(1);
    FileStart(file, w.tokens);
    w.U64(0);
    w.U64(0);
    w.U64(0);
    var facts := file.asyncFunctions;
    w.Count(facts);
    for i := 0 to |facts|
      invariant w.Valid()
      invariant w.tokens + AsyncListTokens(facts[i..]) == old(w.tokens) + FileTokens(file)
    {
      AsyncNext(facts, i, w.tokens);
      var state := w.InternalLocation(facts[i].expression, Fresh);
      w.Text(facts[i].symbol);
      w.Text(facts[i].target);
      w.U64(if facts[i].canReturnAsync then 1 else 0);
      w.InternalLocations(facts[i].callsAfterAwait);
    }
    AsyncEnd(facts, w.tokens);
  }

  lemma FileStart(file: FileFact, before: seq<Token>)
    ensures before + [Num(0)] + [Num(0)] + [Num(0)] + [Length(file.asyncFunctions)] + AsyncListTokens(file.asyncFunctions[0..])
         == before + FileTokens(file)
  {
    hide AsyncListTokens;
    assert file.asyncFunctions[0..] == file.asyncFunctions;
  }

  lemma AsyncNext(facts: seq<AsyncFunctionFact>, i: nat, before: seq<Token>)
    requires i < |facts|
    ensures before + AsyncListTokens(facts[i..])
         == before + LocationTokens(facts[i].expression, Fresh) + [Token.Text(facts[i].symbol, 1, 0)]
           + [Token.Text(facts[i].target, 1, 0)] + [Num(if facts[i].canReturnAsync then 1 else 0)]
           + LocationsTokens(facts[i].callsAfterAwait) + AsyncListTokens(facts[i + 1..])
  {
    hide LocationTokens, LocationsTokens;
    assert facts[i..][1..] == facts[i + 1..];
    AsyncIs(facts[i], before);
    hide AsyncTokens;
  }

  lemma AsyncIs(fact: AsyncFunctionFact, before: seq<Token>)
    ensures before + AsyncTokens(fact)
         == before + LocationTokens(fact.expression, Fresh) + [Token.Text(fact.symbol, 1, 0)]
           + [Token.Text(fact.target, 1, 0)] + [Num(if fact.canReturnAsync then 1 else 0)] + LocationsTokens(fact.callsAfterAwait)
  {
    hide LocationTokens, LocationsTokens;
  }

  lemma AsyncEnd(facts: seq<AsyncFunctionFact>, before: seq<Token>)
    ensures before + AsyncListTokens(facts[|facts|..]) == before
  {
  }

  // --- operations ---

  /** `writeWireTransitionPathOp`. */
  method WritePathOp(w: PackedWriter, row: Row<PathOp>, schema: nat) returns (ok: bool)
    requires w.Valid()
    modifies w, w.dict
    ensures w.Valid() && (ok <==> PathOpWritable(row))
    ensures ok ==> w.tokens == old(w.tokens) + PathOpTokens(schema, row)
  {
    hide *;
    var op := row.value;
    PathOpWritableIs(row);
    if row.key == "" { return false; }
    PathOpStart(schema, row, w.tokens);
    w.Text(row.key);
    w.U64(SlotBits(op));
    SlotsAre(schema, op, w.tokens);
    if op.source.Replace? {
      w.Raw(op.source.value);
    }
    SlotsThen(schema, op, w.tokens);
    if op.entities.Replace? {
      ok := WriteEntityRun(w, row.key, op.entities.value, schema);
      if !ok { return; }
    }
    FileThen(op, w.tokens);
    if op.file.Replace? {
      if op.file.value.path != row.key { return false; }
      WriteFileBody(w, op.file.value);
    }
    ok := true;
  }

  lemma PathOpWritableIs(row: Row<PathOp>)
    ensures PathOpWritable(row) <==> (
      && row.key != ""
      && (row.value.entities.Replace? ==> RunWritable(row.key, row.value.entities.value))
      && (row.value.file.Replace? ==> row.value.file.value.path == row.key))
  {
    hide RunWritable;
  }

  lemma PathOpStart(schema: nat, row: Row<PathOp>, before: seq<Token>)
    ensures SlotBits(row.value) < U64_LIMIT
    ensures before + PathOpTokens(schema, row)
         == before + [Token.Text(row.key, 1, 0)] + [Num(SlotBits(row.value))]
           + (SourceField(row.value.source) + (RunField(schema, row.value.entities) + FileField(row.value.file)))
  {
    hide SourceField, RunField, FileField;
  }

  lemma SlotsAre(schema: nat, op: PathOp, before: seq<Token>)
    ensures before + (SourceField(op.source) + (RunField(schema, op.entities) + FileField(op.file)))
         == (if op.source.Replace? then before + [Token.Raw(op.source.value)] else before)
           + (RunField(schema, op.entities) + FileField(op.file))
  {
    hide RunField, FileField;
  }

  lemma SlotsThen(schema: nat, op: PathOp, before: seq<Token>)
    ensures before + (RunField(schema, op.entities) + FileField(op.file))
         == (if op.entities.Replace? then before + RunTokens(schema, op.entities.value) else before) + FileField(op.file)
  {
    hide RunTokens, FileField;
  }

  lemma FileThen(op: PathOp, before: seq<Token>)
    ensures before + FileField(op.file) == if op.file.Replace? then before + FileTokens(op.file.value) else before
  {
    hide FileTokens;
  }

  /** `writeWireTransitionSymbolOp`. */
  method WriteSymbolOp(w: PackedWriter, mode: Mode, row: Row<SymbolEdit>) returns (ok: bool)
    requires w.Valid()
    modifies w, w.dict
    ensures w.Valid() && (ok <==> SymbolOpWritable(mode, row))
    ensures ok ==> w.tokens == old(w.tokens) + SymbolOpTokens(mode, row)
  {
    hide *;
    SymbolOpWritableIs(mode, row);
    if row.key == "" || (mode == Full && !row.value.ReplaceSymbol?) { return false; }
    SymbolOpStart(mode, row, w.tokens);
    if mode == Full {
      w.Index(row.key, 1, 0);
    } else {
      w.Index(row.key, 4, EditTag(row.value));
    }
    ok := true;
    EditIs(row.value, w.tokens);
    match row.value {
      case ReplaceSymbol(body) =>
        WriteBody(w, body);
      case RemoveSymbol =>
      case ReplacePath(path, references) =>
        if path == "" { return false; }
        w.Text(path);
        ok := ValidateReferences(path, references);
        w.InternalLocations(references);
    }
  }

  method WriteBody(w: PackedWriter, body: SymbolBody)
    requires w.Valid()
    modifies w, w.dict
    ensures w.Valid() && w.tokens == old(w.tokens) + BodyTokens(body)
  {
    hide *;
    BodyIs(body, w.tokens);
    SmallNumber(0);
    w.Text(body.aliasTarget);
    w.InternalDeclarations(body.declarations);
    if body.aliasTarget == "" {
      w.InternalLocations(body.references);
    } else {
      w.U64(0);
    }
  }

  lemma BodyIs(body: SymbolBody, before: seq<Token>)
    ensures before + BodyTokens(body)
         == before + [Token.Text(body.aliasTarget, 1, 0)] + DeclarationsTokens(body.declarations)
           + (if body.aliasTarget == "" then LocationsTokens(body.references) else [Num(0)])
  {
    hide DeclarationsTokens, LocationsTokens;
  }

  method ValidateReferences(path: Path, references: seq<Location>) returns (ok: bool)
    ensures ok <==> ReferencesWritable(path, references)
  {
    for i := 0 to |references|
      invariant forall k :: 0 <= k < i ==> references[k].path == path && LocationWritable(references[k])
    {
      if references[i].path != path || !LocationWritable(references[i]) { return false; }
    }
    ok := true;
  }

  lemma SymbolOpWritableIs(mode: Mode, row: Row<SymbolEdit>)
    ensures SymbolOpWritable(mode, row) <==> (
      && row.key != "" && (mode == Full ==> row.value.ReplaceSymbol?)
      && (row.value.ReplacePath? ==> row.value.path != "" && ReferencesWritable(row.value.path, row.value.references)))
  {
    hide ReferencesWritable;
  }

  lemma SymbolOpStart(mode: Mode, row: Row<SymbolEdit>, before: seq<Token>)
    ensures EditTag(row.value) < 4
    ensures before + SymbolOpTokens(mode, row)
         == before + [if mode == Full then Token.Text(row.key, 1, 0) else Token.Text(row.key, 4, EditTag(row.value))] + EditTokens(row.value)
  {
    hide EditTokens;
  }

  lemma EditIs(edit: SymbolEdit, before: seq<Token>)
    ensures before + EditTokens(edit) == match edit
      case ReplaceSymbol(body) => before + BodyTokens(body)
      case RemoveSymbol => before
      case ReplacePath(path, references) => before + [Token.Text(path, 1, 0)] + LocationsTokens(references)
  {
    hide BodyTokens, LocationsTokens;
  }
}
