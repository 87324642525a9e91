/** The transition encoder (internal/typefacts/wire_transition.go:91-260, 388-421;
internal/typefacts/wire_transition_codec.go:169-190): a planned transition as one frame, or
as a prefix and streamed chunks that make up the same frame. */
module WireEncoders {
  import opened Order
  import opened SortedRows
  import opened Facts
  import opened PathTable
  import opened Varints
  import opened Utf8Text
  import opened PackedTokens
  import opened PackedDictionaries
  import opened PackedLocations
  import opened PackedEntities
  import opened PackedPathOps
  import opened PackedSymbolOps
  import opened PackedTransitions
  import opened PackedWriters
  import opened PackedRowWriters
  import opened RetainedSymbols

  datatype Encoding =
    | Nothing
    | Refused
    | Frame(bytes: seq<byte>)
    | Streamed(prefix: seq<byte>, chunks: seq<seq<byte>>)
  {
    /** The frame the client reads, however it travelled. */
    function Whole(): seq<byte>
      requires Frame? || Streamed?
    {
      if Frame? then bytes else prefix + Joined(chunks)
    }
  }

  ghost predicate Writable(transition: Transition) {
    && (forall k :: 0 <= k < |transition.paths| ==> PathOpWritable(transition.paths[k]))
    && (forall k :: 0 <= k < |transition.symbols| ==> SymbolOpWritable(transition.identity.mode, transition.symbols[k]))
  }

  /** `validateWireTransitionInput`. */
  predicate Validated(identity: Identity) {
    identity.projectID != "" && identity.targetGeneration > 0 && BaseFits(identity)
  }

  /** The header's fields are 64-bit integers. */
  predicate Wide(identity: Identity) {
    identity.schema < U64_LIMIT && identity.baseGeneration < U64_LIMIT && identity.targetGeneration < U64_LIMIT
  }

  /** A delta that changes nothing is not sent at all. */
  predicate IsNothing(transition: Transition) {
    && transition.identity.mode == Delta && transition.paths == [] && transition.symbols == []
    && transition.identity.baseGeneration == transition.identity.targetGeneration
  }

  predicate IsKey(transition: Transition, text: string) {
    || (exists k :: 0 <= k < |transition.paths| && transition.paths[k].key == text)
    || (exists k :: 0 <= k < |transition.symbols| && (transition.symbols[k].key == text
          || (transition.symbols[k].value.ReplacePath? && transition.symbols[k].value.path == text)))
  }

  /** The dictionary of a frame: distinct strings of the transition, the empty one first. */
  ghost predicate DictionaryOf(dict: Dictionary, transition: Transition) {
    && dict != [] && dict[0] == "" && Distinct(dict) && Spelled(dict, RowTokens(transition))
    && forall text :: text in dict ==> text == "" || IsKey(transition, text) || HasText(RowTokens(transition), text)
  }

  class WireEncoder {
    const dict: StringTable

    ghost predicate Valid()
      reads this, dict
    {
      dict.Valid() && dict.values == [""]
    }

    constructor ()
      ensures Valid() && fresh(dict)
    {
      dict := new StringTable();
    }

    /** `internOperationKeys`: keys side by side, for the prefix coding. */
    method InternOperationKeys(transition: Transition)
      requires dict.Valid() && dict.values == [""]
      modifies dict
      ensures dict.Valid() && KeysOnly(dict.values, transition)
    {
      hide *;
      KeysStart(transition);
      for i := 0 to |transition.paths|
        invariant dict.Valid() && KeysOnly(dict.values, transition)
      {
        PathKey(transition, i);
        KeysMore(dict.values, transition, transition.paths[i].key);
        var index := dict.Intern(transition.paths[i].key);
      }
      for i := 0 to |transition.symbols|
        invariant dict.Valid() && KeysOnly(dict.values, transition)
      {
        SymbolKey(transition, i);
        KeysMore(dict.values, transition, transition.symbols[i].key);
        var index := dict.Intern(transition.symbols[i].key);
      }
      for i := 0 to |transition.symbols|
        invariant dict.Valid() && KeysOnly(dict.values, transition)
      {
        if transition.symbols[i].value.ReplacePath? {
          SymbolKey(transition, i);
          KeysMore(dict.values, transition, transition.symbols[i].value.path);
          var index := dict.Intern(transition.symbols[i].value.path);
        }
      }
    }

    method WriteRows(rows: PackedWriter, transition: Transition) returns (ok: bool)
      requires rows.Valid() && rows.dict == dict && rows.tokens == []
      modifies rows, dict
      ensures rows.Valid() && (ok <==> Writable(transition))
      ensures ok ==> rows.tokens == RowTokens(transition)
    {
      hide *;
      var identity, paths, symbols := transition.identity, transition.paths, transition.symbols;
      WritableIs(transition);
      RowsStart(transition);
      rows.Text(identity.projectID);
      rows.Text(identity.baseStateToken);
      rows.Count(paths);
      for i := 0 to |paths|
        invariant rows.Valid()
        invariant forall k :: 0 <= k < i ==> PathOpWritable(paths[k])
        invariant rows.tokens + PathOpsTokens(identity.schema, paths[i..]) + SymbolRowsTokens(identity.mode, symbols) == RowTokens(transition)
      {
        PathOpsNext(identity.schema, paths, i, rows.tokens);
        ok := WritePathOp(rows, paths[i], identity.schema);
        if !ok { return; }
      }
      SymbolsStart(transition, rows.tokens);
      rows.Count(symbols);
      for i := 0 to |symbols|
        invariant rows.Valid()
        invariant forall k :: 0 <= k < i ==> SymbolOpWritable(identity.mode, symbols[k])
        invariant rows.tokens + SymbolOpsTokens(identity.mode, symbols[i..]) == RowTokens(transition)
      {
        SymbolOpsNext(identity.mode, symbols, i, rows.tokens);
        ok := WriteSymbolOp(rows, identity.mode, symbols[i]);
        if !ok { return; }
      }
      SymbolOpsEnd(identity.mode, symbols, rows.tokens);
      ok := true;
    }

    /** `appendPackedDictionary`. */
    method AppendDictionary(frame: PackedWriter)
      requires frame.Valid() && frame.dict == dict
      modifies frame
      ensures frame.Valid() && frame.tokens == old(frame.tokens) + DictionaryTokens(dict.values)
    {
      hide *;
      var values := dict.values;
      frame.Count(values);
      var previous: seq<byte> := [];
      EntriesStart(values, old(frame.tokens));
      for i := 0 to |values|
        invariant frame.Valid()
        invariant frame.tokens + EntriesTokens(values[i..], previous) == old(frame.tokens) + DictionaryTokens(values)
      {
        EntriesNext(values, i, previous, frame.tokens);
        if Hashed(values[i]) {
          frame.U64(1);
          frame.Raw(HexDecode(Digits(values[i])));
        } else {
          frame.U64(0);
          var bytes := Utf8(values[i]);
          var prefix := CommonPrefix(previous, bytes);
          var suffix := bytes[prefix..];
          frame.U64(Unsigned(prefix));
          frame.Count(suffix);
          frame.Raw(suffix);
          previous := bytes;
        }
      }
      EntriesEnd(values, previous, frame.tokens);
    }

    method WriteHeader(frame: PackedWriter, identity: Identity)
      requires frame.Valid() && frame.dict == dict && frame.tokens == []
      requires Wide(identity)
      modifies frame
      ensures frame.Valid() && frame.tokens == HeaderTokens(identity) + DictionaryTokens(dict.values)
    {
      hide *;
      HeaderIs(identity);
      frame.U64(TRANSITION_VERSION);
      frame.U64(ModeCode(identity.mode));
      frame.U64(identity.schema);
      frame.U64(identity.baseGeneration);
      frame.U64(identity.targetGeneration);
      AppendDictionary(frame);
    }

    /** `encode`, after planning. Buffered or streamed, what the client reads is the same frame. */
    method Encode(transition: Transition, stream: Option<Stream>) returns (encoding: Encoding, ghost strings: Dictionary)
      requires Valid() && Wide(transition.identity)
      modifies dict
      ensures Valid()
      ensures encoding.Nothing? <==> Validated(transition.identity) && IsNothing(transition)
      ensures encoding.Refused? && stream.None? ==> !Validated(transition.identity) || !Writable(transition)
      ensures !Validated(transition.identity) || (!encoding.Nothing? && !Writable(transition)) ==> encoding.Refused?
      ensures encoding.Frame? || encoding.Streamed? ==>
        DictionaryOf(strings, transition) && encoding.Whole() == Bytes(strings, FrameTokens(strings, transition.identity, RowTokens(transition)))
      ensures encoding.Streamed? ==> stream.Some?
    {
      hide TableFormed, Writable, DictionaryOf, FrameTokens, RowTokens, HeaderTokens, DictionaryTokens, Bytes;
      hide KeysOnly, Written, Joined, Wide, BaseFits;
      if !Validated(transition.identity) { return Refused, []; }
      if transition.identity.mode == Delta && transition.identity.baseGeneration == transition.identity.targetGeneration
        && transition.paths == [] && transition.symbols == []
      {
        return Nothing, [];
      }
      InternOperationKeys(transition);
      ghost var keys := dict.values;
      var rows := new PackedWriter(dict, stream);
      var ok := WriteRows(rows, transition);
      if ok { ok := rows.Finish(); }
      if !ok {
        dict.Reset();
        return Refused, [];
      }
      strings := dict.values;
      DictionaryWritten(keys, rows.keys, dict.indexes, strings, transition, Joined(rows.chunks), rows.bytes, rows.failed);
      var frame := new PackedWriter(dict, None);
      WriteHeader(frame, transition.identity);
      ok := frame.Finish();
      WholeFrame(strings, transition, frame.bytes);
      encoding := if stream.Some? then Streamed(frame.bytes, rows.chunks) else Frame(frame.bytes + rows.bytes);
      dict.Reset();
    }
  }

  // --- facts of the loops ---

  /** Only the empty string and operation keys. */
  ghost predicate KeysOnly(values: Dictionary, transition: Transition) {
    forall text :: text in values ==> text == "" || IsKey(transition, text)
  }

  lemma KeysStart(transition: Transition)
    ensures KeysOnly([""], transition)
  {
  }

  lemma KeysMore(values: Dictionary, transition: Transition, key: string)
    requires KeysOnly(values, transition) && IsKey(transition, key)
    ensures KeysOnly(Interned(values, key), transition)
  {
    hide IsKey;
    forall text | text in Interned(values, key) ensures text == "" || IsKey(transition, text) {
      InAppended(values, key, text);
    }
  }

  lemma PathKey(transition: Transition, i: nat)
    requires i < |transition.paths|
    ensures IsKey(transition, transition.paths[i].key)
  {
  }

  lemma SymbolKey(transition: Transition, i: nat)
    requires i < |transition.symbols|
    ensures IsKey(transition, transition.symbols[i].key)
    ensures transition.symbols[i].value.ReplacePath? ==> IsKey(transition, transition.symbols[i].value.path)
  {
  }

  lemma WritableIs(transition: Transition)
    ensures Writable(transition) <==> (
      && (forall k :: 0 <= k < |transition.paths| ==> PathOpWritable(transition.paths[k]))
      && (forall k :: 0 <= k < |transition.symbols| ==> SymbolOpWritable(transition.identity.mode, transition.symbols[k])))
  {
    hide PathOpWritable, SymbolOpWritable;
  }

  lemma RowsStart(transition: Transition)
    ensures var identity, paths := transition.identity, transition.paths;
      [] + [Token.Text(identity.projectID, 1, 0)] + [Token.Text(identity.baseStateToken, 1, 0)] + [Length(paths)]
      + PathOpsTokens(identity.schema, paths[0..]) + SymbolRowsTokens(identity.mode, transition.symbols) == RowTokens(transition)
  {
    hide PathOpsTokens, SymbolRowsTokens;
    assert transition.paths[0..] == transition.paths;
  }

  lemma PathOpsNext(schema: nat, paths: seq<Row<PathOp>>, i: nat, before: seq<Token>)
    requires i < |paths|
    ensures before + PathOpsTokens(schema, paths[i..]) == before + PathOpTokens(schema, paths[i]) + PathOpsTokens(schema, paths[i + 1..])
  {
    hide PathOpTokens;
    assert paths[i..][1..] == paths[i + 1..];
  }

  lemma SymbolsStart(transition: Transition, before: seq<Token>)
    ensures before + PathOpsTokens(transition.identity.schema, transition.paths[|transition.paths|..]) + SymbolRowsTokens(transition.identity.mode, transition.symbols)
         == before + [Length(transition.symbols)] + SymbolOpsTokens(transition.identity.mode, transition.symbols[0..])
  {
    hide SymbolOpsTokens;
    assert transition.symbols[0..] == transition.symbols;
  }

  lemma SymbolOpsNext(mode: Mode, symbols: seq<Row<SymbolEdit>>, i: nat, before: seq<Token>)
    requires i < |symbols|
    ensures before + SymbolOpsTokens(mode, symbols[i..]) == before + SymbolOpTokens(mode, symbols[i]) + SymbolOpsTokens(mode, symbols[i + 1..])
  {
    hide SymbolOpTokens;
    assert symbols[i..][1..] == symbols[i + 1..];
  }

  lemma SymbolOpsEnd(mode: Mode, symbols: seq<Row<SymbolEdit>>, before: seq<Token>)
    ensures before + SymbolOpsTokens(mode, symbols[|symbols|..]) == before
  {
  }

  function Digits(value: string): string
    requires Hashed(value)
    ensures AllHex(Digits(value)) && |Digits(value)| % 2 == 0
  {
    value[|HASHED_PREFIX|..]
  }

  lemma EntriesStart(values: seq<string>, before: seq<Token>)
    ensures before + [Length(values)] + EntriesTokens(values[0..], []) == before + DictionaryTokens(values)
    ensures 0 < 1 < U64_LIMIT
  {
    hide EntriesTokens;
    assert values[0..] == values;
  }

  lemma EntriesNext(values: seq<string>, i: nat, previous: seq<byte>, before: seq<Token>)
    requires i < |values|
    ensures 0 < 1 < U64_LIMIT
    ensures var value := values[i];
      before + EntriesTokens(values[i..], previous)
      == if Hashed(value) then before + [Num(1)] + [Token.Raw(HexDecode(Digits(value)))] + EntriesTokens(values[i + 1..], previous)
         else
           var bytes := Utf8(value);
           var prefix := CommonPrefix(previous, bytes);
           before + [Num(0)] + [Num(Unsigned(prefix))] + [Length(bytes[prefix..])] + [Token.Raw(bytes[prefix..])] + EntriesTokens(values[i + 1..], bytes)
  {
    hide Utf8, CommonPrefix, HexDecode, Length, Hashed, EntriesTokens, EntryTokens;
    EntriesUnfold(values, i, previous, before);
    EntryIs(values[i], previous, before);
  }

  lemma EntriesUnfold(values: seq<string>, i: nat, previous: seq<byte>, before: seq<Token>)
    requires i < |values|
    ensures before + EntriesTokens(values[i..], previous)
         == (before + EntryTokens(values[i], previous)) + EntriesTokens(values[i + 1..], Window(values[i], previous))
  {
    hide EntryTokens, Window;
    assert values[i..][1..] == values[i + 1..];
  }

  lemma EntryIs(value: string, previous: seq<byte>, before: seq<Token>)
    ensures Hashed(value) ==> before + EntryTokens(value, previous) == before + [Num(1)] + [Token.Raw(HexDecode(Digits(value)))]
    ensures !Hashed(value) ==>
      var bytes := Utf8(value);
      var prefix := CommonPrefix(previous, bytes);
      before + EntryTokens(value, previous)
      == before + [Num(0)] + [Num(Unsigned(prefix))] + [Length(bytes[prefix..])] + [Token.Raw(bytes[prefix..])]
  {
    hide Utf8, CommonPrefix, HexDecode, Length, Hashed;
  }

  lemma EntriesEnd(values: seq<string>, previous: seq<byte>, before: seq<Token>)
    ensures before + EntriesTokens(values[|values|..], previous) == before
  {
  }

  lemma HeaderIs(identity: Identity)
    requires Wide(identity)
    ensures ModeCode(identity.mode) < U64_LIMIT && identity.schema < U64_LIMIT && TRANSITION_VERSION < U64_LIMIT
    ensures identity.baseGeneration < U64_LIMIT && identity.targetGeneration < U64_LIMIT
    ensures [] + [Num(TRANSITION_VERSION)] + [Num(ModeCode(identity.mode))] + [Num(identity.schema)] + [Num(identity.baseGeneration)]
      + [Num(identity.targetGeneration)] == HeaderTokens(identity)
  {
  }

  lemma DictionaryWritten(
      interned: Dictionary, keys: set<string>, indexes: map<string, nat>, strings: Dictionary, transition: Transition,
      sent: seq<byte>, bytes: seq<byte>, failed: bool)
    requires TableFormed(indexes, strings) && Written(strings, keys, RowTokens(transition), sent, bytes, failed)
    requires KeysOnly(interned, transition) && keys == set text | text in interned
    ensures DictionaryOf(strings, transition)
  {
    hide RowTokens, IsKey, HasText, Bytes, IndexOf, Spelled;
  }

  lemma WholeFrame(strings: Dictionary, transition: Transition, header: seq<byte>)
    requires header == Bytes(strings, HeaderTokens(transition.identity) + DictionaryTokens(strings))
    ensures header + Bytes(strings, RowTokens(transition)) == Bytes(strings, FrameTokens(strings, transition.identity, RowTokens(transition)))
  {
    hide HeaderTokens, DictionaryTokens, RowTokens, Bytes;
    var head, dictionary, rows := HeaderTokens(transition.identity), DictionaryTokens(strings), RowTokens(transition);
    BytesConcat(strings, head + dictionary, rows);
    assert (head + dictionary) + rows == head + (dictionary + rows);
  }

  // --- what the client reads ---

  /** Every string of the transition survives the dictionary: hashed IDs in lower case. */
  ghost predicate TextsCodable(transition: Transition) {
    forall text :: IsKey(transition, text) || HasText(RowTokens(transition), text) ==> Codable(text)
  }

  lemma EmptyCodable()
    ensures Codable("")
  {
  }

  // --- the size of the dictionary ---

  lemma HasTextConcat(a: seq<Token>, b: seq<Token>, text: string)
    ensures HasText(a, text) || HasText(b, text) ==> HasText(a + b, text)
  {
    if HasText(a, text) {
      var k :| 0 <= k < |a| && a[k].Text? && a[k].text == text;
      assert (a + b)[k] == a[k];
    } else if HasText(b, text) {
      var k :| 0 <= k < |b| && b[k].Text? && b[k].text == text;
      assert (a + b)[|a| + k] == b[k];
    }
  }

  lemma {:induction false} PathKeyWritten(schema: nat, ops: seq<Row<PathOp>>, k: nat)
    requires k < |ops|
    ensures HasText(PathOpsTokens(schema, ops), ops[k].key)
  {
    hide HasText;
    HasTextConcat(PathOpTokens(schema, ops[0]), PathOpsTokens(schema, ops[1..]), ops[k].key);
    if k == 0 {
      FirstText(PathOpTokens(schema, ops[0]), ops[0].key);
    } else {
      PathKeyWritten(schema, ops[1..], k - 1);
    }
  }

  lemma FirstText(tokens: seq<Token>, text: string)
    requires tokens != [] && tokens[0].Text? && tokens[0].text == text
    ensures HasText(tokens, text)
  {
  }

  lemma {:induction false} SymbolWritten(mode: Mode, ops: seq<Row<SymbolEdit>>, k: nat, text: string)
    requires k < |ops| && HasText(SymbolOpTokens(mode, ops[k]), text)
    ensures HasText(SymbolOpsTokens(mode, ops), text)
  {
    hide HasText, SymbolOpTokens;
    HasTextConcat(SymbolOpTokens(mode, ops[0]), SymbolOpsTokens(mode, ops[1..]), text);
    if k > 0 {
      assert ops[1..][k - 1] == ops[k];
      SymbolWritten(mode, ops[1..], k - 1, text);
    }
  }

  lemma OneSymbolWritten(mode: Mode, op: Row<SymbolEdit>)
    ensures HasText(SymbolOpTokens(mode, op), op.key)
    ensures op.value.ReplacePath? ==> HasText(SymbolOpTokens(mode, op), op.value.path)
  {
    hide HasText, BodyTokens, LocationsTokens;
    FirstText(SymbolOpTokens(mode, op), op.key);
    if op.value.ReplacePath? {
      FirstText(EditTokens(op.value), op.value.path);
      HasTextConcat([HeaderToken(mode, op)], EditTokens(op.value), op.value.path);
    }
  }

  lemma SymbolKeyWritten(mode: Mode, ops: seq<Row<SymbolEdit>>, k: nat)
    requires k < |ops|
    ensures HasText(SymbolOpsTokens(mode, ops), ops[k].key)
    ensures ops[k].value.ReplacePath? ==> HasText(SymbolOpsTokens(mode, ops), ops[k].value.path)
  {
    hide HasText, SymbolOpTokens, SymbolOpsTokens;
    OneSymbolWritten(mode, ops[k]);
    SymbolWritten(mode, ops, k, ops[k].key);
    if ops[k].value.ReplacePath? { SymbolWritten(mode, ops, k, ops[k].value.path); }
  }

  /** Every announced key is written as well. */
  lemma KeyWritten(transition: Transition, text: string)
    requires IsKey(transition, text)
    ensures HasText(RowTokens(transition), text)
  {
    hide HasText, PathOpsTokens, SymbolOpsTokens;
    var project, token := [Text(transition.identity.projectID, 1, 0)], [Text(transition.identity.baseStateToken, 1, 0)];
    var schema, mode := transition.identity.schema, transition.identity.mode;
    var paths, symbols := PathRowsTokens(schema, transition.paths), SymbolRowsTokens(mode, transition.symbols);
    if exists k :: 0 <= k < |transition.paths| && transition.paths[k].key == text {
      var k :| 0 <= k < |transition.paths| && transition.paths[k].key == text;
      PathKeyWritten(schema, transition.paths, k);
    } else {
      var k :| 0 <= k < |transition.symbols| && (transition.symbols[k].key == text
          || (transition.symbols[k].value.ReplacePath? && transition.symbols[k].value.path == text));
      SymbolKeyWritten(mode, transition.symbols, k);
    }
    HasTextConcat([Length(transition.paths)], PathOpsTokens(schema, transition.paths), text);
    HasTextConcat([Length(transition.symbols)], SymbolOpsTokens(mode, transition.symbols), text);
    HasTextConcat(paths, symbols, text);
    HasTextConcat(token, paths + symbols, text);
    HasTextConcat(project, token + (paths + symbols), text);
  }

  /** The dictionary holds the strings written and the empty one, so its size is the transition's. */
  lemma DictionarySize(a: Dictionary, b: Dictionary, transition: Transition)
    requires DictionaryOf(a, transition) && DictionaryOf(b, transition)
    ensures |a| == |b|
  {
    Within(a, b, transition);
    Within(b, a, transition);
    assert SetOf(a) == SetOf(b);
    hide DictionaryOf, SetOf;
    DistinctOf(a, transition);
    DistinctOf(b, transition);
    hide Distinct;
    DistinctSize(a);
    DistinctSize(b);
  }

  lemma DistinctOf(dict: Dictionary, transition: Transition)
    requires DictionaryOf(dict, transition)
    ensures Distinct(dict)
  {
    hide Distinct, Spelled, IsKey, HasText, RowTokens;
  }

  lemma Within(a: Dictionary, b: Dictionary, transition: Transition)
    requires DictionaryOf(a, transition) && DictionaryOf(b, transition)
    ensures SetOf(a) <= SetOf(b)
  {
    hide RowTokens, IsKey, Distinct;
    var tokens := RowTokens(transition);
    forall text | text in a ensures text in b {
      if text != "" {
        if IsKey(transition, text) { KeyWritten(transition, text); }
        var k :| 0 <= k < |tokens| && tokens[k].Text? && tokens[k].text == text;
        assert Spellable(b, tokens[k]);
      }
    }
  }

  /** Any frame the encoder makes for a well-formed transition of codable strings decodes to its
  projection, buffered or streamed; the exception is exactly schema 3 with a runtime value domain. */
  lemma EncodedFrameDecodes(strings: Dictionary, transition: Transition, frame: seq<byte>)
    requires TransitionFits(transition) && TextsCodable(transition)
    requires DictionaryOf(strings, transition) && |strings| <= PACKED_COLLECTION_LIMIT
    requires frame == Bytes(strings, FrameTokens(strings, transition.identity, RowTokens(transition)))
    ensures DecodeTransition(frame)
         == if SchemaHoldsOps(transition.identity.schema, transition.paths) then Good(CarriedTransition(transition), []) else Bad
  {
    hide Bytes, FrameTokens, RowTokens, DecodeTransition, TransitionFits, SchemaHoldsOps, CarriedTransition, Codable, IsKey, HasText, Spelled, Distinct;
    DictionaryReady(strings, transition);
    TransitionRoundTrip(strings, transition);
  }

  lemma DictionaryReady(strings: Dictionary, transition: Transition)
    requires TextsCodable(transition) && DictionaryOf(strings, transition) && |strings| <= PACKED_COLLECTION_LIMIT
    ensures DictionaryFits(strings) && Fits(strings, RowTokens(transition))
  {
    hide RowTokens, Codable, IsKey, HasText, Spelled, Distinct;
    EmptyCodable();
    SpelledFits(strings, RowTokens(transition));
  }
}
