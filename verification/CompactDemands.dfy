/** The compact demand snapshot (internal/typefacts/protocolv3_compact.go:80-337, 355-448,
crates/typefacts/src/v3.rs:1512-1627): demands grouped by path, packed as varint rows over a string table. */
module CompactDemands {
  import opened SortedRows
  import opened Facts
  import opened Varints
  import opened PackedTokens
  import opened PackedLocations
  import opened PackedEntities
  import opened PackedWriters

  datatype CompactGroup = CompactGroup(path: nat, demands: seq<byte>)

  datatype Compact = Compact(groups: seq<CompactGroup>, strings: Dictionary)

  // --- lenient integers ---

  /** `binary.Uvarint` after `n` bytes: unlike the frame's cursor it accepts longer forms. */
  function TakeFrom(input: seq<byte>, n: nat): (parsed: Parsed<nat>)
    ensures parsed.Good? ==> |parsed.rest| < |input|
    decreases |input|
  {
    if n > 9 || input == [] then Bad
    else
      var b := input[0];
      if n == 9 && b > 1 then Bad
      else if b < 128 then Good(b, input[1..])
      else
        match TakeFrom(input[1..], n + 1)
        case Bad => Bad
        case Good(high, rest) => Good(b - 128 + 128 * high, rest)
  }

  function Take(input: seq<byte>): (parsed: Parsed<nat>)
    ensures parsed.Good? ==> |parsed.rest| < |input|
  {
    TakeFrom(input, 0)
  }

  lemma {:induction false} TakesShortest(input: seq<byte>, n: nat)
    requires DecodeFrom(input, n).Good?
    ensures TakeFrom(input, n) == DecodeFrom(input, n)
    decreases |input|
  {
    if input[0] >= 128 { TakesShortest(input[1..], n + 1); }
  }

  lemma {:induction false} TakenFits(input: seq<byte>, n: nat)
    requires n <= 9 && TakeFrom(input, n).Good?
    ensures TakeFrom(input, n).value < Room(n)
    decreases |input|
  {
    if input[0] >= 128 {
      TakenFits(input[1..], n + 1);
      assert Room(n) == 128 * Room(n + 1);
    }
  }

  // --- flags ---

  const OTHER_FLAGS: nat := 14

  const FLAGS: nat := 19

  /** The nineteen demand flags in wire order. */
  function FlagOf(demand: EntityDemand, k: nat): bool
    requires |demand.others| == OTHER_FLAGS && k < FLAGS
  {
    if k == 0 then demand.symbol
    else if k == 1 then demand.references
    else if k == 2 then demand.typeDescriptor
    else if k == 3 then demand.others[0]
    else if k == 4 then demand.async
    else if k == 5 then demand.structuralAccessor
    else demand.others[k - 5]
  }

  function DemandFlags(demand: EntityDemand): (flags: seq<bool>)
    requires |demand.others| == OTHER_FLAGS
    ensures |flags| == FLAGS && forall k :: 0 <= k < FLAGS ==> flags[k] == FlagOf(demand, k)
  {
    seq(FLAGS, (k: int) requires 0 <= k < FLAGS => FlagOf(demand, k))
  }

  const ASYNC_FLAG: nat := 4

  /** `flags << 1 | hasQuery`. */
  function Header(demand: EntityDemand): nat
    requires |demand.others| == OTHER_FLAGS
  {
    Pack([demand.query.Some?] + DemandFlags(demand))
  }

  function FlagAt(header: nat, index: nat): bool {
    Bit(header, index + 1)
  }

  /** The demand a header and its locations stand for; higher bits are ignored. */
  function DemandOf(header: nat, location: Location, query: Option<Location>): (demand: EntityDemand)
    ensures |demand.others| == OTHER_FLAGS && demand.location == location && demand.query == query
  {
    EntityDemand(location, query, FlagAt(header, 0), FlagAt(header, 1), FlagAt(header, 2), FlagAt(header, 4), FlagAt(header, 5),
      seq(OTHER_FLAGS, (k: int) requires 0 <= k < OTHER_FLAGS => FlagAt(header, if k == 0 then 3 else k + 5)))
  }

  lemma HeaderReads(demand: EntityDemand)
    requires |demand.others| == OTHER_FLAGS
    ensures Header(demand) < U64_LIMIT && Bit(Header(demand), 0) == demand.query.Some?
    ensures forall k :: 0 <= k < FLAGS ==> FlagAt(Header(demand), k) == FlagOf(demand, k)
  {
    hide Bit, Pack, FlagOf;
    var bits := [demand.query.Some?] + DemandFlags(demand);
    BitPacked(bits, 0);
    forall k | 0 <= k < FLAGS ensures FlagAt(Header(demand), k) == FlagOf(demand, k) {
      BitPacked(bits, k + 1);
    }
    PackBound(bits);
    assert PowerOfTwo(5) == 32 && PowerOfTwo(10) == 1024 && PowerOfTwo(15) == 32768 && PowerOfTwo(20) == 1048576;
  }

  lemma DemandReads(demand: EntityDemand)
    requires |demand.others| == OTHER_FLAGS
    ensures DemandOf(Header(demand), demand.location, demand.query) == demand
  {
    HeaderReads(demand);
    hide Header, FlagAt;
    var read := DemandOf(Header(demand), demand.location, demand.query);
    forall k | 0 <= k < OTHER_FLAGS ensures read.others[k] == demand.others[k] {
      assert FlagOf(demand, if k == 0 then 3 else k + 5) == demand.others[k];
    }
  }

  /** The flags of an expanded demand are those of its header. */
  lemma FlagsOfDemand(header: nat, location: Location, query: Option<Location>, k: nat)
    requires k < FLAGS
    ensures FlagOf(DemandOf(header, location, query), k) == FlagAt(header, k)
  {
    hide FlagAt;
  }

  // --- rows ---

  function RowTokens(demand: EntityDemand, previousStart: int): seq<Token>
    requires |demand.others| == OTHER_FLAGS
  {
    [Num(Header(demand)), Num(Unsigned(demand.location.startByte - previousStart)), Num(Unsigned(demand.location.endByte - demand.location.startByte))]
    + (if demand.query.Some? then
         [Text(demand.query.value.path, 1, 0), Num(Unsigned(demand.query.value.startByte)),
          Num(Unsigned(demand.query.value.endByte - demand.query.value.startByte))]
       else [])
  }

  predicate DemandPlaced(demand: EntityDemand) {
    |demand.others| == OTHER_FLAGS && Placed(demand.location) && (demand.query.Some? ==> Placed(demand.query.value))
  }

  ghost predicate AllDemandsPlaced(demands: seq<EntityDemand>) {
    forall k :: 0 <= k < |demands| ==> DemandPlaced(demands[k])
  }

  function RowsTokens(demands: seq<EntityDemand>, previousStart: int): seq<Token>
    requires AllFormed(demands)
  {
    if demands == [] then [] else RowTokens(demands[0], previousStart) + RowsTokens(demands[1..], demands[0].location.startByte)
  }

  // --- the three walks ---

  /** A row's integers; positions as the source's wrapping additions leave them. */
  datatype RawRow = RawRow(header: nat, start: nat, length: nat, query: Option<RawQuery>)

  datatype RawQuery = RawQuery(path: nat, start: nat, length: nat)

  /** Three integers, six with a query: all that counting needs. */
  function TakeRaw(input: seq<byte>, previousStart: nat): (parsed: Parsed<RawRow>)
    ensures parsed.Good? ==> |parsed.rest| < |input|
  {
    var header :- Take(input);
    var delta :- Take(header.1);
    var length :- Take(delta.1);
    var start := Unsigned(previousStart + delta.0);
    if !Bit(header.0, 0) then Good(RawRow(header.0, start, length.0, None), length.1)
    else
      var path :- Take(length.1);
      var queryStart :- Take(path.1);
      var queryLength :- Take(queryStart.1);
      Good(RawRow(header.0, start, length.0, Some(RawQuery(path.0, queryStart.0, queryLength.0))), queryLength.1)
  }

  /** No 64-bit addition of the row wrapped. */
  predicate Unwrapped(row: RawRow, previousStart: nat) {
    && previousStart <= row.start && row.start + row.length < U64_LIMIT
    && (row.query.Some? ==> row.query.value.start + row.query.value.length < U64_LIMIT)
  }

  predicate Resolves(strings: Dictionary, row: RawRow) {
    row.query.Some? ==> row.query.value.path < |strings|
  }

  function QueryOf(strings: Dictionary, row: RawRow): Option<Location>
    requires Resolves(strings, row)
  {
    match row.query
    case None => None
    case Some(query) => Some(Location(strings[query.path], Signed(query.start), Signed(query.start + query.length)))
  }

  function Expanded(strings: Dictionary, path: Path, row: RawRow): EntityDemand
    requires Resolves(strings, row)
  {
    DemandOf(row.header, Location(path, Signed(row.start), Signed(row.start + row.length)), QueryOf(strings, row))
  }

  function ExpandRows(strings: Dictionary, path: Path, input: seq<byte>, previousStart: nat): Option<seq<EntityDemand>>
    decreases |input|
  {
    if input == [] then Some([])
    else
      match TakeRaw(input, previousStart)
      case Bad => None
      case Good(row, rest) =>
        if !Unwrapped(row, previousStart) || !Resolves(strings, row) then None
        else
          match ExpandRows(strings, path, rest, row.start)
          case None => None
          case Some(others) => Some([Expanded(strings, path, row)] + others)
  }

  function ExpandGroup(strings: Dictionary, group: CompactGroup): Option<seq<EntityDemand>> {
    if group.path >= |strings| then None else ExpandRows(strings, strings[group.path], group.demands, 0)
  }

  function ExpandGroups(strings: Dictionary, groups: seq<CompactGroup>): Option<seq<EntityDemand>> {
    if groups == [] then Some([])
    else
      match ExpandGroup(strings, groups[0])
      case None => None
      case Some(first) =>
        match ExpandGroups(strings, groups[1..])
        case None => None
        case Some(others) => Some(first + others)
  }

  datatype Shape = Shape(rows: nat, queries: nat)

  /** `demandShape` of one group: integers only, no overflow or table check. */
  function RowsShape(input: seq<byte>): Option<Shape>
    decreases |input|
  {
    if input == [] then Some(Shape(0, 0))
    else
      match TakeRaw(input, 0)
      case Bad => None
      case Good(row, rest) =>
        match RowsShape(rest)
        case None => None
        case Some(more) => Some(Shape(more.rows + 1, more.queries + if row.query.Some? then 1 else 0))
  }

  function GroupsShape(groups: seq<CompactGroup>): Option<Shape> {
    if groups == [] then Some(Shape(0, 0))
    else
      match RowsShape(groups[0].demands)
      case None => None
      case Some(first) =>
        match GroupsShape(groups[1..])
        case None => None
        case Some(others) => Some(Shape(first.rows + others.rows, first.queries + others.queries))
  }

  /** The flag-filtered walk: a row that is not selected has its query skipped, not looked up. */
  function FilterRows(strings: Dictionary, path: Path, input: seq<byte>, previousStart: nat, flag: nat): Option<seq<EntityDemand>>
    decreases |input|
  {
    if input == [] then Some([])
    else
      match TakeRaw(input, previousStart)
      case Bad => None
      case Good(row, rest) =>
        var selected := FlagAt(row.header, flag);
        if !Unwrapped(row, previousStart) || (selected && !Resolves(strings, row)) then None
        else
          match FilterRows(strings, path, rest, row.start, flag)
          case None => None
          case Some(others) => Some(if selected then [Expanded(strings, path, row)] + others else others)
  }

  function FilterGroup(strings: Dictionary, group: CompactGroup, flag: nat): Option<seq<EntityDemand>> {
    if group.path >= |strings| then None else FilterRows(strings, strings[group.path], group.demands, 0, flag)
  }

  // --- counting ---

  function Queries(demands: seq<EntityDemand>): nat {
    if demands == [] then 0 else (if demands[0].query.Some? then 1 else 0) + Queries(demands[1..])
  }

  /** Positions do not matter to how many bytes a row takes. */
  lemma RawAnywhere(input: seq<byte>, a: nat, b: nat)
    ensures TakeRaw(input, a).Good? <==> TakeRaw(input, b).Good?
    ensures TakeRaw(input, a).Good? ==>
      TakeRaw(input, a).rest == TakeRaw(input, b).rest && TakeRaw(input, a).value.query == TakeRaw(input, b).value.query
  {
    hide Take, Bit;
  }

  /** On any bytes: whatever expands has exactly the counted rows and queries. */
  lemma {:induction false} ShapeCounts(strings: Dictionary, path: Path, input: seq<byte>, previousStart: nat)
    requires ExpandRows(strings, path, input, previousStart).Some?
    ensures var demands := ExpandRows(strings, path, input, previousStart).value;
      RowsShape(input) == Some(Shape(|demands|, Queries(demands)))
    decreases |input|
  {
    hide TakeRaw, Unwrapped, DemandOf;
    if input != [] {
      RawAnywhere(input, previousStart, 0);
      var raw := TakeRaw(input, previousStart);
      ShapeCounts(strings, path, raw.rest, raw.value.start);
    }
  }

  lemma {:induction false} QueriesConcat(a: seq<EntityDemand>, b: seq<EntityDemand>)
    ensures Queries(a + b) == Queries(a) + Queries(b)
  {
    if a == [] {
      assert a + b == b;
    } else {
      assert (a + b)[1..] == a[1..] + b;
      QueriesConcat(a[1..], b);
    }
  }

  lemma {:induction false} GroupsShapeCounts(strings: Dictionary, groups: seq<CompactGroup>)
    requires ExpandGroups(strings, groups).Some?
    ensures var demands := ExpandGroups(strings, groups).value;
      GroupsShape(groups) == Some(Shape(|demands|, Queries(demands)))
  {
    hide ExpandRows, RowsShape;
    if groups != [] {
      var group := groups[0];
      ShapeCounts(strings, strings[group.path], group.demands, 0);
      GroupsShapeCounts(strings, groups[1..]);
      QueriesConcat(ExpandGroup(strings, group).value, ExpandGroups(strings, groups[1..]).value);
    }
  }

  // --- filtering ---

  predicate AllFormed(demands: seq<EntityDemand>) {
    forall k :: 0 <= k < |demands| ==> |demands[k].others| == OTHER_FLAGS
  }

  function Selected(demands: seq<EntityDemand>, flag: nat): seq<EntityDemand>
    requires flag < FLAGS && AllFormed(demands)
  {
    if demands == [] then []
    else (if FlagOf(demands[0], flag) then [demands[0]] else []) + Selected(demands[1..], flag)
  }

  /** Some unselected row has a query whose path is not in the table. */
  predicate UnselectedDangles(strings: Dictionary, input: seq<byte>, previousStart: nat, flag: nat)
    decreases |input|
  {
    input != [] && TakeRaw(input, previousStart).Good?
    && var raw := TakeRaw(input, previousStart);
       (!FlagAt(raw.value.header, flag) && !Resolves(strings, raw.value)) || UnselectedDangles(strings, raw.rest, raw.value.start, flag)
  }

  /** The walk refuses what expansion refuses, but for dangling queries of unselected rows; and what
  expands, it filters. */
  lemma {:induction false} FilterMeaning(strings: Dictionary, path: Path, input: seq<byte>, previousStart: nat, flag: nat)
    requires flag < FLAGS
    ensures var all, some := ExpandRows(strings, path, input, previousStart), FilterRows(strings, path, input, previousStart, flag);
      all.Some? <==> some.Some? && !UnselectedDangles(strings, input, previousStart, flag)
    ensures var all, some := ExpandRows(strings, path, input, previousStart), FilterRows(strings, path, input, previousStart, flag);
      all.Some? ==> AllFormed(all.value) && some == Some(Selected(all.value, flag))
    decreases |input|
  {
    hide TakeRaw, Unwrapped, DemandOf, FlagAt, FlagOf;
    if input != [] && TakeRaw(input, previousStart).Good? {
      var raw := TakeRaw(input, previousStart);
      FilterMeaning(strings, path, raw.rest, raw.value.start, flag);
      if Resolves(strings, raw.value) {
        var row := raw.value;
        FlagsOfDemand(row.header, Location(path, Signed(row.start), Signed(row.start + row.length)), QueryOf(strings, row), flag);
        var others := ExpandRows(strings, path, raw.rest, row.start);
        if others.Some? {
          SelectedCons(Expanded(strings, path, row), others.value, flag);
          assert [] + Selected(others.value, flag) == Selected(others.value, flag);
        }
      }
    }
  }

  lemma SelectedCons(first: EntityDemand, others: seq<EntityDemand>, flag: nat)
    requires flag < FLAGS && |first.others| == OTHER_FLAGS && AllFormed(others)
    ensures AllFormed([first] + others)
    ensures Selected([first] + others, flag) == (if FlagOf(first, flag) then [first] else []) + Selected(others, flag)
  {
    assert ([first] + others)[1..] == others;
  }

  /** The flag-filtered walk of a group against expanding it and filtering. */
  lemma FilterIsExpandThenFilter(strings: Dictionary, group: CompactGroup, flag: nat)
    requires flag < FLAGS
    ensures ExpandGroup(strings, group).Some? <==> FilterGroup(strings, group, flag).Some? && !UnselectedDangles(strings, group.demands, 0, flag)
    ensures var all := ExpandGroup(strings, group);
      all.Some? ==> AllFormed(all.value) && FilterGroup(strings, group, flag) == Some(Selected(all.value, flag))
  {
    if group.path < |strings| {
      FilterMeaning(strings, strings[group.path], group.demands, 0, flag);
    }
    hide ExpandRows, FilterRows, UnselectedDangles, Selected;
  }

  /** For example one row that wants nothing, its query path outside a short table: the walk
  skips it, expansion refuses it. */
  lemma DanglingQueryIsSkipped(strings: Dictionary, flag: nat)
    requires 0 < |strings| <= 9 && flag < FLAGS
    ensures var group := CompactGroup(0, [1, 0, 0, 9, 0, 0]);
      ExpandGroup(strings, group) == None && FilterGroup(strings, group, flag) == Some([])
  {
    var input: seq<byte> := [1, 0, 0, 9, 0, 0];
    DanglingRow(input);
    NothingWanted(flag);
    hide TakeRaw, FlagAt;
  }

  lemma DanglingRow(input: seq<byte>)
    requires input == [1, 0, 0, 9, 0, 0]
    ensures TakeRaw(input, 0) == Good(RawRow(1, 0, 0, Some(RawQuery(9, 0, 0))), [])
  {
    assert input[1..] == [0, 0, 9, 0, 0] && [0, 0, 9, 0, 0][1..] == [0, 9, 0, 0] && [0, 9, 0, 0][1..] == [9, 0, 0];
    assert [9, 0, 0][1..] == [0, 0] && [0, 0][1..] == [0] && [0][1..] == [];
    assert Take(input) == Good(1, input[1..]);
  }

  lemma NothingWanted(flag: nat)
    ensures !FlagAt(1, flag)
  {
    ZeroBits(flag);
  }

  lemma {:induction false} ZeroBits(k: nat)
    ensures !Bit(0, k)
  {
    if k > 0 { ZeroBits(k - 1); }
  }
}
