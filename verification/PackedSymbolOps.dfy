/** Symbol operations on the packed wire (internal/typefacts/wire_transition_rows.go:516-585,
crates/typefacts/src/v3.rs:1389-1467). */
module PackedSymbolOps {
  import opened Order
  import opened SortedRows
  import opened Facts
  import opened Varints
  import opened PackedTokens
  import opened PackedLocations
  import opened PackedPathOps
  import opened RetainedSymbols

  function EditTag(edit: SymbolEdit): nat {
    match edit
    case ReplaceSymbol(_) => 0
    case RemoveSymbol => 1
    case ReplacePath(_, _) => 2
  }

  /** The index alone in a full transition, which only replaces; index and tag in a delta. */
  function HeaderToken(mode: Mode, row: Row<SymbolEdit>): Token {
    if mode == Full then Text(row.key, 1, 0) else Text(row.key, 4, EditTag(row.value))
  }

  /** An alias is written without references. */
  function BodyTokens(body: SymbolBody): seq<Token> {
    [Text(body.aliasTarget, 1, 0)]
    + (DeclarationsTokens(body.declarations) + (if body.aliasTarget == "" then LocationsTokens(body.references) else [Num(0)]))
  }

  function EditTokens(edit: SymbolEdit): seq<Token> {
    match edit
    case ReplaceSymbol(body) => BodyTokens(body)
    case RemoveSymbol => []
    case ReplacePath(path, references) => [Text(path, 1, 0)] + LocationsTokens(references)
  }

  function SymbolOpTokens(mode: Mode, row: Row<SymbolEdit>): seq<Token> {
    [HeaderToken(mode, row)] + EditTokens(row.value)
  }

  // --- decoding ---

  datatype Header = Header(id: SymbolID, tag: nat)

  function DecodeHeader(dict: Dictionary, mode: Mode, input: seq<byte>): Parsed<Header> {
    var header :- U64(input);
    var index, tag := if mode == Full then header.0 else header.0 / 4, if mode == Full then 0 else header.0 % 4;
    if tag == 3 || index >= |dict| || dict[index] == "" then Bad else Good(Header(dict[index], tag), header.1)
  }

  predicate LocationAtMost(a: Location, b: Location) {
    Less(a.path, b.path) || (a.path == b.path && PlaceAtMost(a, b))
  }

  predicate LocationsCanonical(locations: seq<Location>) {
    forall k :: 0 < k < |locations| ==> LocationAtMost(locations[k - 1], locations[k])
  }

  predicate AllAt(path: Path, locations: seq<Location>) {
    forall k :: 0 <= k < |locations| ==> locations[k].path == path
  }

  function DecodeBody(dict: Dictionary, input: seq<byte>): Parsed<SymbolBody> {
    var target :- StringIndex(dict, input);
    var declarations :- DecodeDeclarations(dict, target.1);
    var references :- DecodeLocations(dict, declarations.1);
    if !LocationsCanonical(references.0) || (target.0 != "" && references.0 != []) then Bad
    else Good(SymbolBody(target.0, declarations.0, references.0), references.1)
  }

  function DecodeReplacePath(dict: Dictionary, input: seq<byte>): Parsed<SymbolEdit> {
    var path :- StringIndex(dict, input);
    if path.0 == "" then Bad
    else
      var references :- DecodeLocations(dict, path.1);
      if !AllAt(path.0, references.0) || !LocationsCanonical(references.0) then Bad
      else Good(ReplacePath(path.0, references.0), references.1)
  }

  function DecodeEdit(dict: Dictionary, tag: nat, input: seq<byte>): Parsed<SymbolEdit> {
    if tag == 0 then
      var body :- DecodeBody(dict, input);
      Good(ReplaceSymbol(body.0), body.1)
    else if tag == 1 then Good(RemoveSymbol, input)
    else DecodeReplacePath(dict, input)
  }

  function EditPath(edit: SymbolEdit): Path {
    if edit.ReplacePath? then edit.path else ""
  }

  /** Operations are ordered by ID, then tag, then reference path. */
  predicate OpLess(a: Row<SymbolEdit>, b: Row<SymbolEdit>) {
    Less(a.key, b.key)
    || (a.key == b.key && (EditTag(a.value) < EditTag(b.value)
      || (EditTag(a.value) == EditTag(b.value) && Less(EditPath(a.value), EditPath(b.value)))))
  }

  function DecodeSymbolOp(dict: Dictionary, mode: Mode, previous: Option<Row<SymbolEdit>>, input: seq<byte>): Parsed<Row<SymbolEdit>> {
    var header :- DecodeHeader(dict, mode, input);
    var edit :- DecodeEdit(dict, header.0.tag, header.1);
    var row := Row(header.0.id, edit.0);
    if previous.Some? && !OpLess(previous.value, row) then Bad else Good(row, edit.1)
  }

  function DecodeSymbolOps(dict: Dictionary, mode: Mode, previous: Option<Row<SymbolEdit>>, input: seq<byte>, count: nat): Parsed<seq<Row<SymbolEdit>>>
    decreases count
  {
    if count == 0 then Good([], input)
    else
      var first :- DecodeSymbolOp(dict, mode, previous, input);
      var others :- DecodeSymbolOps(dict, mode, Some(first.0), first.1, count - 1);
      Good([first.0] + others.0, others.1)
  }

  // --- the round trip ---

  predicate BodyFits(body: SymbolBody) {
    && DeclarationsPlaced(body.declarations) && AllPlaced(body.references) && LocationsCanonical(body.references)
    && (body.aliasTarget == "" || body.references == [])
  }

  predicate EditFits(mode: Mode, edit: SymbolEdit) {
    match edit
    case ReplaceSymbol(body) => BodyFits(body)
    case RemoveSymbol => mode == Delta
    case ReplacePath(path, references) =>
      mode == Delta && path != "" && AllPlaced(references) && AllAt(path, references) && LocationsCanonical(references)
  }

  lemma HeaderRoundTrip(dict: Dictionary, mode: Mode, row: Row<SymbolEdit>, rest: seq<Token>)
    requires row.key != "" && EditFits(mode, row.value) && TokenFits(dict, HeaderToken(mode, row))
    ensures DecodeHeader(dict, mode, Bytes(dict, [HeaderToken(mode, row)] + rest)) == Good(Header(row.key, EditTag(row.value)), Bytes(dict, rest))
  {
    hide Bytes, Encode, U64, BodyFits;
    var token := HeaderToken(mode, row);
    ReadScaled(dict, row.key, token.scale, token.tag, rest);
    var index := IndexOf(dict, row.key);
    hide IndexOf;
    Quarter(index, EditTag(row.value));
  }

  lemma Quarter(index: nat, tag: nat)
    requires tag < 4
    ensures (index * 4 + tag) / 4 == index && (index * 4 + tag) % 4 == tag && index * 1 + 0 == index
  {
  }

  lemma EmptyReferences()
    ensures LocationsTokens([]) == [Num(0)]
  {
  }

  lemma BodyRoundTrip(dict: Dictionary, body: SymbolBody, rest: seq<Token>)
    requires BodyFits(body) && Fits(dict, BodyTokens(body))
    ensures DecodeBody(dict, Bytes(dict, BodyTokens(body) + rest)) == Good(body, Bytes(dict, rest))
  {
    hide Bytes, Fits, StringIndex, DecodeDeclarations, DeclarationsTokens, DecodeLocations, LocationsTokens;
    hide DeclarationsPlaced, AllPlaced, LocationsCanonical, TokenFits;
    EmptyReferences();
    var target, declarations, references := [Text(body.aliasTarget, 1, 0)], DeclarationsTokens(body.declarations), LocationsTokens(body.references);
    assert BodyTokens(body) == target + (declarations + references);
    FitsConcat(dict, target, declarations + references);
    FitsConcat(dict, declarations, references);
    Nest2(target, declarations + references, rest);
    Nest2(declarations, references, rest);
    OneFits(dict, target[0]);
    ReadText(dict, body.aliasTarget, declarations + (references + rest));
    DeclarationsRoundTrip(dict, body.declarations, references + rest);
    LocationsRoundTrip(dict, body.references, rest);
  }

  lemma ReplacePathRoundTrip(dict: Dictionary, edit: SymbolEdit, rest: seq<Token>)
    requires edit.ReplacePath? && EditFits(Delta, edit) && Fits(dict, EditTokens(edit))
    ensures DecodeReplacePath(dict, Bytes(dict, EditTokens(edit) + rest)) == Good(edit, Bytes(dict, rest))
  {
    hide Bytes, Fits, StringIndex, DecodeLocations, LocationsTokens, AllPlaced, LocationsCanonical, AllAt, TokenFits;
    var path, references := [Text(edit.path, 1, 0)], LocationsTokens(edit.references);
    FitsConcat(dict, path, references);
    Nest2(path, references, rest);
    OneFits(dict, path[0]);
    ReadText(dict, edit.path, references + rest);
    LocationsRoundTrip(dict, edit.references, rest);
  }

  lemma EditRoundTrip(dict: Dictionary, mode: Mode, edit: SymbolEdit, rest: seq<Token>)
    requires EditFits(mode, edit) && Fits(dict, EditTokens(edit))
    ensures DecodeEdit(dict, EditTag(edit), Bytes(dict, EditTokens(edit) + rest)) == Good(edit, Bytes(dict, rest))
  {
    hide Bytes, Fits, DecodeBody, DecodeReplacePath, BodyTokens, LocationsTokens, BodyFits, AllPlaced, LocationsCanonical, AllAt;
    match edit {
      case ReplaceSymbol(body) =>
        BodyRoundTrip(dict, body, rest);
      case RemoveSymbol =>
        assert EditTokens(edit) + rest == rest;
      case ReplacePath(path, references) =>
        ReplacePathRoundTrip(dict, edit, rest);
    }
  }

  lemma SymbolOpRoundTrip(dict: Dictionary, mode: Mode, previous: Option<Row<SymbolEdit>>, row: Row<SymbolEdit>, rest: seq<Token>)
    requires row.key != "" && EditFits(mode, row.value) && Fits(dict, SymbolOpTokens(mode, row))
    requires previous.Some? ==> OpLess(previous.value, row)
    ensures DecodeSymbolOp(dict, mode, previous, Bytes(dict, SymbolOpTokens(mode, row) + rest)) == Good(row, Bytes(dict, rest))
  {
    hide Bytes, Fits, DecodeHeader, DecodeEdit, HeaderToken, EditTokens, EditFits, OpLess, TokenFits;
    var header, edit := [HeaderToken(mode, row)], EditTokens(row.value);
    FitsConcat(dict, header, edit);
    Nest2(header, edit, rest);
    OneFits(dict, header[0]);
    HeaderRoundTrip(dict, mode, row, edit + rest);
    EditRoundTrip(dict, mode, row.value, rest);
  }

  function SymbolOpsTokens(mode: Mode, ops: seq<Row<SymbolEdit>>): seq<Token> {
    if ops == [] then [] else SymbolOpTokens(mode, ops[0]) + SymbolOpsTokens(mode, ops[1..])
  }

  ghost predicate SymbolOpsFit(mode: Mode, ops: seq<Row<SymbolEdit>>) {
    && |ops| <= PACKED_COLLECTION_LIMIT
    && (forall k :: 0 <= k < |ops| ==> ops[k].key != "" && EditFits(mode, ops[k].value))
    && (forall k :: 0 < k < |ops| ==> OpLess(ops[k - 1], ops[k]))
  }

  lemma SymbolOpsSplit(mode: Mode, ops: seq<Row<SymbolEdit>>)
    requires ops != [] && SymbolOpsFit(mode, ops)
    ensures ops[0].key != "" && EditFits(mode, ops[0].value) && SymbolOpsFit(mode, ops[1..])
    ensures |ops| > 1 ==> OpLess(ops[0], ops[1..][0])
  {
    hide EditFits, OpLess;
    var rest := ops[1..];
    forall k | 0 < k < |rest| ensures OpLess(rest[k - 1], rest[k]) {
      assert rest[k - 1] == ops[(k + 1) - 1] && rest[k] == ops[k + 1];
    }
    if |ops| > 1 { assert OpLess(ops[1 - 1], ops[1]); }
  }

  /** Ordered symbol operations come back as they were, in the same order. */
  lemma {:induction false} SymbolOpsRoundTrip(dict: Dictionary, mode: Mode, previous: Option<Row<SymbolEdit>>, ops: seq<Row<SymbolEdit>>, rest: seq<Token>)
    requires SymbolOpsFit(mode, ops) && Fits(dict, SymbolOpsTokens(mode, ops))
    requires previous.Some? && ops != [] ==> OpLess(previous.value, ops[0])
    ensures DecodeSymbolOps(dict, mode, previous, Bytes(dict, SymbolOpsTokens(mode, ops) + rest), |ops|) == Good(ops, Bytes(dict, rest))
    decreases |ops|
  {
    hide Bytes, Fits, DecodeSymbolOp, SymbolOpTokens, SymbolOpsFit, EditFits, OpLess;
    if ops == [] {
      assert SymbolOpsTokens(mode, ops) + rest == rest;
    } else {
      var first, others := SymbolOpTokens(mode, ops[0]), SymbolOpsTokens(mode, ops[1..]);
      SymbolOpsSplit(mode, ops);
      FitsConcat(dict, first, others);
      Nest2(first, others, rest);
      SymbolOpRoundTrip(dict, mode, previous, ops[0], others + rest);
      SymbolOpsRoundTrip(dict, mode, Some(ops[0]), ops[1..], rest);
      assert ops == [ops[0]] + ops[1..];
    }
  }
}
