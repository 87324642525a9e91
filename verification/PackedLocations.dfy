/** Locations, declarations and type descriptors on the packed wire
(internal/typefacts/wire_transition_codec.go:86-131, crates/typefacts/src/v3.rs:497-564). */
module PackedLocations {
  import opened SortedRows
  import opened Facts
  import opened Varints
  import opened PackedTokens

  /** `int64(x)`. */
  function Signed(x: int): (y: int)
    ensures -I64_LIMIT <= y < I64_LIMIT
  {
    (x + I64_LIMIT) % U64_LIMIT - I64_LIMIT
  }

  /** `packedWriter.signed`. */
  function Difference(from: int, to: int): Token {
    Num(ZigZag(Signed(to - from)))
  }

  /** A location a 64-bit program can hold. */
  predicate Placed(location: Location) {
    0 <= location.startByte <= location.endByte < I64_LIMIT
  }

  /** The preceding location of the same list: its path and start. */
  datatype LocationState = Fresh | After(path: Path, start: int)

  predicate StatePlaced(state: LocationState) {
    state.After? ==> 0 <= state.start < I64_LIMIT
  }

  // --- one location ---

  function LocationTokens(location: Location, state: LocationState): seq<Token> {
    (if state.After? && state.path == location.path
     then [Num(1), Difference(state.start, location.startByte)]
     else [Text(location.path, 2, 0), Num(Unsigned(location.startByte))])
    + [Num(Unsigned(location.endByte - location.startByte))]
  }

  function StateAfter(location: Location): LocationState {
    After(location.path, location.startByte)
  }

  /** `add_signed`. */
  function AddSigned(start: int, code: nat): Option<int> {
    var sum := start + UnZigZag(code);
    if 0 <= sum < U64_LIMIT then Some(sum) else None
  }

  function DecodeEnd(path: Path, start: int, input: seq<byte>): Parsed<Location> {
    var length :- U64(input);
    if start + length.0 >= U64_LIMIT then Bad else Good(Location(path, start, start + length.0), length.1)
  }

  function DecodeNear(input: seq<byte>, state: LocationState): Parsed<Location> {
    if state.Fresh? then Bad
    else
      var code :- U64(input);
      match AddSigned(state.start, code.0)
      case None => Bad
      case Some(start) => DecodeEnd(state.path, start, code.1)
  }

  function DecodeFar(dict: Dictionary, index: nat, input: seq<byte>): Parsed<Location> {
    if index >= |dict| then Bad
    else
      var start :- U64(input);
      DecodeEnd(dict[index], start.0, start.1)
  }

  /** `PackedCursor::location`: the repeated-path marker is 1, and only legal after another location. */
  function DecodeLocation(dict: Dictionary, input: seq<byte>, state: LocationState): Parsed<Location> {
    var token :- U64(input);
    if token.0 == 1 then DecodeNear(token.1, state)
    else if token.0 % 2 == 1 then Bad
    else DecodeFar(dict, token.0 / 2, token.1)
  }

  lemma DifferenceReads(from: int, to: int)
    requires 0 <= from < I64_LIMIT && 0 <= to < I64_LIMIT
    ensures Difference(from, to).n < U64_LIMIT && AddSigned(from, Difference(from, to).n) == Some(to)
  {
    var delta := to - from;
    assert (delta + I64_LIMIT) % U64_LIMIT == delta + I64_LIMIT;
    ZigZagRoundTrip(delta);
  }

  lemma EndReads(dict: Dictionary, location: Location, rest: seq<Token>)
    requires Placed(location)
    ensures Unsigned(location.endByte - location.startByte) == location.endByte - location.startByte
    ensures Unsigned(location.startByte) == location.startByte
    ensures var length := [Num(Unsigned(location.endByte - location.startByte))] + rest;
      DecodeEnd(location.path, location.startByte, Bytes(dict, length)) == Good(location, Bytes(dict, rest))
  {
    hide Bytes, U64;
    ReadNum(dict, location.endByte - location.startByte, rest);
  }

  lemma NearRoundTrip(dict: Dictionary, location: Location, state: LocationState, rest: seq<Token>)
    requires Placed(location) && StatePlaced(state) && state.After? && state.path == location.path
    ensures DecodeLocation(dict, Bytes(dict, LocationTokens(location, state) + rest), state) == Good(location, Bytes(dict, rest))
  {
    var length := [Num(Unsigned(location.endByte - location.startByte))] + rest;
    var delta := Difference(state.start, location.startByte);
    assert LocationTokens(location, state) + rest == [Num(1)] + ([delta] + length);
    DifferenceReads(state.start, location.startByte);
    EndReads(dict, location, rest);
    ReadNum(dict, 1, [delta] + length);
    ReadNum(dict, delta.n, length);
    hide Bytes, U64, AddSigned, DecodeEnd, LocationTokens;
  }

  lemma FarRoundTrip(dict: Dictionary, location: Location, state: LocationState, rest: seq<Token>)
    requires Placed(location) && !(state.After? && state.path == location.path)
    requires TokenFits(dict, Text(location.path, 2, 0))
    ensures DecodeLocation(dict, Bytes(dict, LocationTokens(location, state) + rest), state) == Good(location, Bytes(dict, rest))
  {
    hide Bytes, U64, DecodeEnd, Encode, TokenFits;
    var length := [Num(Unsigned(location.endByte - location.startByte))] + rest;
    var start := [Num(Unsigned(location.startByte))] + length;
    assert LocationTokens(location, state) + rest == [Text(location.path, 2, 0)] + start;
    EndReads(dict, location, rest);
    hide LocationTokens, Unsigned;
    ReadNum(dict, location.startByte, length);
    ReadPath(dict, location.path, start);
    hide DecodeNear;
  }

  lemma ReadPath(dict: Dictionary, path: Path, rest: seq<Token>)
    requires TokenFits(dict, Text(path, 2, 0))
    ensures var token := U64(Bytes(dict, [Text(path, 2, 0)] + rest));
      token.Good? && token.rest == Bytes(dict, rest) && token.value % 2 == 0 && token.value / 2 < |dict| && dict[token.value / 2] == path
  {
    hide U64, Bytes, Encode, IndexOf;
    ReadScaled(dict, path, 2, 0, rest);
    HalfOf(IndexOf(dict, path));
  }

  lemma HalfOf(index: nat)
    ensures index * 2 + 0 == 2 * index && 2 * index % 2 == 0 && 2 * index / 2 == index
  {
  }

  lemma LocationRoundTrip(dict: Dictionary, location: Location, state: LocationState, rest: seq<Token>)
    requires Placed(location) && StatePlaced(state) && Fits(dict, LocationTokens(location, state))
    ensures DecodeLocation(dict, Bytes(dict, LocationTokens(location, state) + rest), state) == Good(location, Bytes(dict, rest))
  {
    hide Bytes, DecodeLocation, Placed;
    if state.After? && state.path == location.path {
      NearRoundTrip(dict, location, state, rest);
    } else {
      assert LocationTokens(location, state)[0] == Text(location.path, 2, 0);
      FarRoundTrip(dict, location, state, rest);
    }
  }

  lemma TextFits(dict: Dictionary, tokens: seq<Token>, k: nat)
    requires Fits(dict, tokens) && k < |tokens|
    ensures TokenFits(dict, tokens[k])
    ensures tokens[k].Text? ==> tokens[k].text in dict && IndexOf(dict, tokens[k].text) < |dict|
    ensures tokens[k].Text? ==> dict[IndexOf(dict, tokens[k].text)] == tokens[k].text
  {
  }

  // --- lists ---

  function LocationListTokens(locations: seq<Location>, state: LocationState): seq<Token> {
    if locations == [] then []
    else LocationTokens(locations[0], state) + LocationListTokens(locations[1..], StateAfter(locations[0]))
  }

  function LocationsTokens(locations: seq<Location>): seq<Token> {
    [Length(locations)] + LocationListTokens(locations, Fresh)
  }

  function DecodeLocationList(dict: Dictionary, input: seq<byte>, count: nat, state: LocationState): Parsed<seq<Location>>
    decreases count
  {
    if count == 0 then Good([], input)
    else
      var first :- DecodeLocation(dict, input, state);
      var others :- DecodeLocationList(dict, first.1, count - 1, StateAfter(first.0));
      Good([first.0] + others.0, others.1)
  }

  function DecodeLocations(dict: Dictionary, input: seq<byte>): Parsed<seq<Location>> {
    var count :- Counted(input);
    DecodeLocationList(dict, count.1, count.0, Fresh)
  }

  predicate AllPlaced(locations: seq<Location>) {
    |locations| <= PACKED_COLLECTION_LIMIT && forall k :: 0 <= k < |locations| ==> Placed(locations[k])
  }

  lemma {:induction false} LocationListRoundTrip(dict: Dictionary, locations: seq<Location>, state: LocationState, rest: seq<Token>)
    requires AllPlaced(locations) && StatePlaced(state) && Fits(dict, LocationListTokens(locations, state))
    ensures DecodeLocationList(dict, Bytes(dict, LocationListTokens(locations, state) + rest), |locations|, state)
         == Good(locations, Bytes(dict, rest))
  {
    hide Bytes, Fits, DecodeLocation, LocationTokens;
    var tokens := LocationListTokens(locations, state);
    if locations == [] {
      assert tokens + rest == rest;
    } else {
      var first, others := LocationTokens(locations[0], state), LocationListTokens(locations[1..], StateAfter(locations[0]));
      FitsConcat(dict, first, others);
      assert tokens + rest == first + (others + rest);
      LocationRoundTrip(dict, locations[0], state, others + rest);
      LocationListRoundTrip(dict, locations[1..], StateAfter(locations[0]), rest);
      assert locations == [locations[0]] + locations[1..];
    }
  }

  lemma LocationsRoundTrip(dict: Dictionary, locations: seq<Location>, rest: seq<Token>)
    requires AllPlaced(locations) && Fits(dict, LocationsTokens(locations))
    ensures DecodeLocations(dict, Bytes(dict, LocationsTokens(locations) + rest)) == Good(locations, Bytes(dict, rest))
  {
    hide Bytes, Fits, Counted, DecodeLocationList, LocationListTokens;
    var list := LocationListTokens(locations, Fresh);
    FitsConcat(dict, [Length(locations)], list);
    assert LocationsTokens(locations) + rest == [Length(locations)] + (list + rest);
    ReadLength(dict, locations, list + rest);
    LocationListRoundTrip(dict, locations, Fresh, rest);
  }

  // --- declarations and type descriptors ---

  function DeclarationTokens(declaration: Declaration, state: LocationState): seq<Token> {
    [Text(declaration.name, 1, 0), Text(declaration.kind, 1, 0)] + LocationTokens(declaration.location, state)
  }

  function DeclarationListTokens(declarations: seq<Declaration>, state: LocationState): seq<Token> {
    if declarations == [] then []
    else
      DeclarationTokens(declarations[0], state)
      + DeclarationListTokens(declarations[1..], StateAfter(declarations[0].location))
  }

  function DeclarationsTokens(declarations: seq<Declaration>): seq<Token> {
    [Length(declarations)] + DeclarationListTokens(declarations, Fresh)
  }

  function DecodeDeclaration(dict: Dictionary, input: seq<byte>, state: LocationState): Parsed<Declaration> {
    var name :- StringIndex(dict, input);
    var kind :- StringIndex(dict, name.1);
    var location :- DecodeLocation(dict, kind.1, state);
    Good(Declaration(name.0, kind.0, location.0), location.1)
  }

  function DecodeDeclarationList(dict: Dictionary, input: seq<byte>, count: nat, state: LocationState): Parsed<seq<Declaration>>
    decreases count
  {
    if count == 0 then Good([], input)
    else
      var first :- DecodeDeclaration(dict, input, state);
      var others :- DecodeDeclarationList(dict, first.1, count - 1, StateAfter(first.0.location));
      Good([first.0] + others.0, others.1)
  }

  function DecodeDeclarations(dict: Dictionary, input: seq<byte>): Parsed<seq<Declaration>> {
    var count :- Counted(input);
    DecodeDeclarationList(dict, count.1, count.0, Fresh)
  }

  predicate DeclarationsPlaced(declarations: seq<Declaration>) {
    && |declarations| <= PACKED_COLLECTION_LIMIT
    && forall k :: 0 <= k < |declarations| ==> Placed(declarations[k].location)
  }

  lemma DeclarationRoundTrip(dict: Dictionary, declaration: Declaration, state: LocationState, rest: seq<Token>)
    requires Placed(declaration.location) && StatePlaced(state) && Fits(dict, DeclarationTokens(declaration, state))
    ensures DecodeDeclaration(dict, Bytes(dict, DeclarationTokens(declaration, state) + rest), state)
         == Good(declaration, Bytes(dict, rest))
  {
    hide Bytes, Fits, StringIndex, DecodeLocation, LocationTokens, TokenFits, Placed;
    var name, kind := Text(declaration.name, 1, 0), Text(declaration.kind, 1, 0);
    var location := LocationTokens(declaration.location, state);
    var tokens := DeclarationTokens(declaration, state);
    FitsConcat(dict, [name, kind], location);
    TextFits(dict, tokens, 0);
    TextFits(dict, tokens, 1);
    assert tokens + rest == [name] + ([kind] + (location + rest));
    ReadText(dict, declaration.name, [kind] + (location + rest));
    ReadText(dict, declaration.kind, location + rest);
    LocationRoundTrip(dict, declaration.location, state, rest);
  }

  lemma {:induction false} DeclarationListRoundTrip(dict: Dictionary, declarations: seq<Declaration>, state: LocationState, rest: seq<Token>)
    requires DeclarationsPlaced(declarations) && StatePlaced(state) && Fits(dict, DeclarationListTokens(declarations, state))
    ensures DecodeDeclarationList(dict, Bytes(dict, DeclarationListTokens(declarations, state) + rest), |declarations|, state)
         == Good(declarations, Bytes(dict, rest))
  {
    hide Bytes, Fits, DecodeDeclaration, DeclarationTokens;
    var tokens := DeclarationListTokens(declarations, state);
    if declarations == [] {
      assert tokens + rest == rest;
    } else {
      var next := StateAfter(declarations[0].location);
      var first, others := DeclarationTokens(declarations[0], state), DeclarationListTokens(declarations[1..], next);
      FitsConcat(dict, first, others);
      assert tokens + rest == first + (others + rest);
      DeclarationRoundTrip(dict, declarations[0], state, others + rest);
      DeclarationListRoundTrip(dict, declarations[1..], next, rest);
      assert declarations == [declarations[0]] + declarations[1..];
    }
  }

  lemma DeclarationsRoundTrip(dict: Dictionary, declarations: seq<Declaration>, rest: seq<Token>)
    requires DeclarationsPlaced(declarations) && Fits(dict, DeclarationsTokens(declarations))
    ensures DecodeDeclarations(dict, Bytes(dict, DeclarationsTokens(declarations) + rest)) == Good(declarations, Bytes(dict, rest))
  {
    hide Bytes, Fits, Counted, DecodeDeclarationList, DeclarationListTokens;
    var list := DeclarationListTokens(declarations, Fresh);
    FitsConcat(dict, [Length(declarations)], list);
    assert DeclarationsTokens(declarations) + rest == [Length(declarations)] + (list + rest);
    ReadLength(dict, declarations, list + rest);
    DeclarationListRoundTrip(dict, declarations, Fresh, rest);
  }

  function DescriptorTokens(descriptor: TypeDescriptor): seq<Token> {
    [Text(descriptor.text, 1, 0), Text(descriptor.originModule, 1, 0)] + DeclarationsTokens(descriptor.aliasDeclarations)
  }

  function DecodeDescriptor(dict: Dictionary, input: seq<byte>): Parsed<TypeDescriptor> {
    var text :- StringIndex(dict, input);
    var origin :- StringIndex(dict, text.1);
    var declarations :- DecodeDeclarations(dict, origin.1);
    Good(TypeDescriptor(text.0, origin.0, declarations.0), declarations.1)
  }

  lemma DescriptorRoundTrip(dict: Dictionary, descriptor: TypeDescriptor, rest: seq<Token>)
    requires DeclarationsPlaced(descriptor.aliasDeclarations) && Fits(dict, DescriptorTokens(descriptor))
    ensures DecodeDescriptor(dict, Bytes(dict, DescriptorTokens(descriptor) + rest)) == Good(descriptor, Bytes(dict, rest))
  {
    hide Bytes, Fits, StringIndex, DecodeDeclarations, DeclarationsTokens, TokenFits, DeclarationsPlaced;
    var text, origin := Text(descriptor.text, 1, 0), Text(descriptor.originModule, 1, 0);
    var list := DeclarationsTokens(descriptor.aliasDeclarations);
    var tokens := DescriptorTokens(descriptor);
    FitsConcat(dict, [text, origin], list);
    TextFits(dict, tokens, 0);
    TextFits(dict, tokens, 1);
    assert tokens + rest == [text] + ([origin] + (list + rest));
    ReadText(dict, descriptor.text, [origin] + (list + rest));
    ReadText(dict, descriptor.originModule, list + rest);
    DeclarationsRoundTrip(dict, descriptor.aliasDeclarations, rest);
  }
}
