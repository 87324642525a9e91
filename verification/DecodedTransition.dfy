/** Any bytes the decoder accepts are a canonical transition (crates/typefacts/src/v3.rs:1246-1484):
what the retained table requires of its operations holds of every accepted frame. */
module DecodedTransitions {
  import opened Order
  import opened SortedRows
  import opened Facts
  import opened PathTable
  import opened Varints
  import opened PackedTokens
  import opened PackedDictionaries
  import opened PackedLocations
  import opened PackedEntities
  import opened PackedPathOps
  import opened PackedSymbolOps
  import opened PackedTransitions
  import opened RetainedSymbols
  import opened SymbolDeltas

  /** Paths strictly increasing, runs canonical and at their path, and no empty operation. */
  ghost predicate PathOpsFormed(mode: Mode, ops: seq<Row<PathOp>>) {
    && Sorted(ops)
    && forall k :: 0 <= k < |ops| ==> PathOpFormed(mode, ops[k])
  }

  ghost predicate PathOpFormed(mode: Mode, row: Row<PathOp>) {
    && row.key != "" && SlotsFit(mode, row.value)
    && (row.value.source.Replace? ==> |row.value.source.value| == DIGEST_LENGTH)
    && (row.value.entities.Replace? ==> row.value.entities.value != [] && RunCanonical(row.value.entities.value))
    && (row.value.file.Replace? ==> row.value.file.value.path == row.key)
  }

  ghost predicate SymbolOpsFormed(mode: Mode, ops: seq<Row<SymbolEdit>>) {
    && (forall k :: 0 <= k < |ops| ==> SymbolOpFormed(mode, ops[k]))
    && (forall i, j :: 0 <= i < j < |ops| ==> OpLess(ops[i], ops[j]))
  }

  ghost predicate SymbolOpFormed(mode: Mode, row: Row<SymbolEdit>) {
    && row.key != "" && (mode == Full ==> row.value.ReplaceSymbol?)
    && match row.value
       case ReplaceSymbol(body) => LocationsCanonical(body.references) && (body.aliasTarget != "" ==> body.references == [])
       case RemoveSymbol => true
       case ReplacePath(path, references) => path != "" && AllAt(path, references) && LocationsCanonical(references)
  }

  ghost predicate Formed(transition: Transition) {
    && transition.identity.projectID != "" && AcceptedSchema(transition.identity.schema) && BaseFits(transition.identity)
    && PathOpsFormed(transition.identity.mode, transition.paths)
    && SymbolOpsFormed(transition.identity.mode, transition.symbols)
  }

  // --- path operations ---

  lemma SlotsDecoded(dict: Dictionary, schema: nat, path: Path, tags: (nat, nat, nat), input: seq<byte>)
    requires DecodeSlots(dict, schema, path, tags, input).Good? && tags.0 < 3 && tags.1 < 3 && tags.2 < 3
    ensures var op := DecodeSlots(dict, schema, path, tags, input).value;
      && SlotCode(op.source) == tags.0 && SlotCode(op.entities) == tags.1 && SlotCode(op.file) == tags.2
      && (op.source.Replace? ==> |op.source.value| == DIGEST_LENGTH)
      && (op.entities.Replace? ==> op.entities.value != [] && RunCanonical(op.entities.value))
      && (op.file.Replace? ==> op.file.value.path == path)
  {
    hide DecodeRun, DecodeAsyncList, RunCanonical;
  }

  lemma PathOpDecoded(dict: Dictionary, schema: nat, mode: Mode, previous: Option<Path>, input: seq<byte>)
    requires DecodePathOp(dict, schema, mode, previous, input).Good?
    ensures var row := DecodePathOp(dict, schema, mode, previous, input).value;
      PathOpFormed(mode, row) && (previous.Some? ==> Less(previous.value, row.key))
  {
    hide DecodeSlots, Less, StringIndex, U64, RunCanonical;
    var path := StringIndex(dict, input);
    var bits := U64(path.rest);
    TagsSmall(mode, bits.value);
    SlotsDecoded(dict, schema, path.value, ParseSlots(mode, bits.value).value, bits.rest);
    hide ParseSlots;
  }

  lemma TagsSmall(mode: Mode, bits: nat)
    requires ParseSlots(mode, bits).Some?
    ensures var tags := ParseSlots(mode, bits).value;
      && tags.0 < 3 && tags.1 < 3 && tags.2 < 3 && !(tags.0 == 0 && tags.1 == 0 && tags.2 == 0)
      && (mode == Full ==> tags.0 != 2 && tags.1 != 2 && tags.2 != 2)
  {
  }

  lemma {:induction false} PathOpsDecoded(dict: Dictionary, schema: nat, mode: Mode, previous: Option<Path>, input: seq<byte>, count: nat)
    requires DecodePathOps(dict, schema, mode, previous, input, count).Good?
    ensures var ops := DecodePathOps(dict, schema, mode, previous, input, count).value;
      && |ops| == count && PathOpsFormed(mode, ops)
      && (previous.Some? ==> forall k :: 0 <= k < |ops| ==> Less(previous.value, ops[k].key))
    decreases count
  {
    hide DecodePathOp, Less, PathOpFormed;
    if count > 0 {
      TotalOrder();
      var first := DecodePathOp(dict, schema, mode, previous, input);
      PathOpDecoded(dict, schema, mode, previous, input);
      PathOpsDecoded(dict, schema, mode, Some(first.value.key), first.rest, count - 1);
    }
  }

  // --- symbol operations ---

  lemma EditDecoded(dict: Dictionary, mode: Mode, tag: nat, input: seq<byte>, id: SymbolID)
    requires DecodeEdit(dict, tag, input).Good? && tag < 3 && (mode == Full ==> tag == 0) && id != ""
    ensures SymbolOpFormed(mode, Row(id, DecodeEdit(dict, tag, input).value))
  {
    hide StringIndex, DecodeDeclarations, DecodeLocations, LocationsCanonical, AllAt;
  }

  lemma SymbolOpDecoded(dict: Dictionary, mode: Mode, previous: Option<Row<SymbolEdit>>, input: seq<byte>)
    requires DecodeSymbolOp(dict, mode, previous, input).Good?
    ensures var row := DecodeSymbolOp(dict, mode, previous, input).value;
      SymbolOpFormed(mode, row) && (previous.Some? ==> OpLess(previous.value, row))
  {
    var header := DecodeHeader(dict, mode, input);
    HeaderDecoded(dict, mode, input);
    EditDecoded(dict, mode, header.value.tag, header.rest, header.value.id);
    hide DecodeHeader, DecodeEdit, OpLess, SymbolOpFormed;
  }

  lemma HeaderDecoded(dict: Dictionary, mode: Mode, input: seq<byte>)
    requires DecodeHeader(dict, mode, input).Good?
    ensures var header := DecodeHeader(dict, mode, input).value;
      header.id != "" && header.tag < 3 && (mode == Full ==> header.tag == 0)
  {
    hide U64;
  }

  lemma OpChain(a: Row<SymbolEdit>, b: Row<SymbolEdit>, c: Row<SymbolEdit>)
    requires OpLess(a, b) && OpLess(b, c)
    ensures OpLess(a, c)
  {
    hide Less;
    TotalOrder();
  }

  lemma {:induction false} SymbolOpsDecoded(dict: Dictionary, mode: Mode, previous: Option<Row<SymbolEdit>>, input: seq<byte>, count: nat)
    requires DecodeSymbolOps(dict, mode, previous, input, count).Good?
    ensures var ops := DecodeSymbolOps(dict, mode, previous, input, count).value;
      && |ops| == count && SymbolOpsFormed(mode, ops)
      && (previous.Some? ==> forall k :: 0 <= k < |ops| ==> OpLess(previous.value, ops[k]))
    decreases count
  {
    hide DecodeSymbolOp, OpLess, SymbolOpFormed;
    if count > 0 {
      var first := DecodeSymbolOp(dict, mode, previous, input);
      SymbolOpDecoded(dict, mode, previous, input);
      SymbolOpsDecoded(dict, mode, Some(first.value), first.rest, count - 1);
      var rest := DecodeSymbolOps(dict, mode, Some(first.value), first.rest, count - 1).value;
      if previous.Some? {
        forall k | 0 <= k < |rest| ensures OpLess(previous.value, rest[k]) { OpChain(previous.value, first.value, rest[k]); }
      }
    }
  }

  // --- the frame ---

  /** Every accepted frame is a canonical transition, whatever the bytes. */
  lemma DecodedFormed(input: seq<byte>)
    requires DecodeTransition(input).Good?
    ensures Formed(DecodeTransition(input).value)
  {
    hide DecodeNumbers, DecodeDictionary, PackedTransitions.DecodeIdentity, DecodePathOps, DecodeSymbolOps, PathOpsFormed, SymbolOpsFormed, BaseFits, Counted;
    var numbers := DecodeNumbers(input);
    var dict := DecodeDictionary(numbers.rest);
    var identity := PackedTransitions.DecodeIdentity(dict.value, numbers.value, dict.rest);
    IdentityDecoded(input, dict.value, numbers.value, dict.rest);
    var count := Counted(identity.rest);
    PathOpsDecoded(dict.value, identity.value.schema, identity.value.mode, None, count.rest, count.value);
    var paths := DecodePathRows(dict.value, identity.value, identity.rest);
    var symbols := Counted(paths.rest);
    SymbolOpsDecoded(dict.value, identity.value.mode, None, symbols.rest, symbols.value);
  }

  lemma IdentityDecoded(input: seq<byte>, dict: Dictionary, numbers: Numbers, rest: seq<byte>)
    requires DecodeNumbers(input).Good? && DecodeNumbers(input).value == numbers && PackedTransitions.DecodeIdentity(dict, numbers, rest).Good?
    ensures var identity := PackedTransitions.DecodeIdentity(dict, numbers, rest).value;
      identity.projectID != "" && AcceptedSchema(identity.schema) && BaseFits(identity)
  {
    hide U64, StringIndex, BaseFits;
  }

  /** What applying a delta asks of its operations. */
  lemma FormedApplies(transition: Transition)
    requires Formed(transition)
    ensures Sorted(transition.paths) && GroupedByID(transition.symbols) && EditsValid(transition.symbols)
    ensures forall k :: 0 <= k < |transition.symbols| ==> transition.symbols[k].key != ""
  {
    hide Less, PathOpFormed, BaseFits;
    var ops := transition.symbols;
    TotalOrder();
    forall k | 0 <= k < |ops| ensures EditValid(ops[k].value) && ops[k].key != "" {
      assert SymbolOpFormed(transition.identity.mode, ops[k]);
      FormedValid(transition.identity.mode, ops[k]);
    }
    forall i, j | 0 <= i < j < |ops| ensures AtMost(ops[i].key, ops[j].key) {
      assert OpLess(ops[i], ops[j]);
    }
  }

  lemma FormedValid(mode: Mode, row: Row<SymbolEdit>)
    requires SymbolOpFormed(mode, row)
    ensures EditValid(row.value)
  {
    hide Less;
    TotalOrder();
    if row.value.ReplaceSymbol? { CanonicalOrdered(row.value.body.references); }
  }

  lemma {:induction false} CanonicalOrdered(references: seq<Location>)
    requires LocationsCanonical(references)
    ensures PathOrdered(references)
    decreases |references|
  {
    hide Less;
    TotalOrder();
    if references != [] {
      var n := |references| - 1;
      CanonicalOrdered(references[..n]);
      forall i, j | 0 <= i < j < |references| ensures AtMost(references[i].path, references[j].path) {
        if j == n {
          assert LocationAtMost(references[n - 1], references[n]);
          if i < n - 1 { assert AtMost(references[..n][i].path, references[..n][n - 1].path); }
        } else {
          assert AtMost(references[..n][i].path, references[..n][j].path);
        }
      }
    }
  }
}
