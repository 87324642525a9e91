/** The loops that compact, count, expand and filter (internal/typefacts/protocolv3_compact.go:112-448). */
module CompactWalks {
  import opened Order
  import opened SortedRows
  import opened Facts
  import opened Varints
  import opened PackedTokens
  import opened PackedLocations
  import opened PackedEntities
  import opened PackedWriters
  import opened CompactDemands
  import opened CompactCodecs

  // --- compacting ---

  lemma {:induction false} RowsAppend(run: seq<EntityDemand>, demand: EntityDemand, previousStart: int)
    requires AllFormed(run) && |demand.others| == OTHER_FLAGS
    ensures AllFormed(run + [demand])
    ensures RowsTokens(run + [demand], previousStart)
         == RowsTokens(run, previousStart) + RowTokens(demand, if run == [] then previousStart else run[|run| - 1].location.startByte)
  {
    hide RowTokens;
    var all := run + [demand];
    if run == [] {
      assert all == [demand] && all[1..] == [];
      assert RowsTokens(all, previousStart) == RowTokens(demand, previousStart) + RowsTokens([], demand.location.startByte);
    } else {
      RowsAppend(run[1..], demand, run[0].location.startByte);
      assert all[1..] == run[1..] + [demand];
      RowsAre(all, previousStart);
      RowsAre(run, previousStart);
      hide RowsTokens;
    }
  }

  /** The table may grow under groups already encoded. */
  lemma EncodedGrows(strings: Dictionary, more: Dictionary, runs: Runs, groups: seq<CompactGroup>)
    requires Encoded(strings, runs, groups) && strings <= more
    ensures Encoded(more, runs, groups)
  {
    hide RowsTokens, Bytes, IndexOf, Spelled;
    forall i | 0 <= i < |runs| ensures EncodedRun(more, runs[i], groups[i]) {
      assert EncodedRun(strings, runs[i], groups[i]);
      BytesStable(strings, more, RowsTokens(runs[i], 0));
      IndexStable(strings, more, runs[i][0].location.path);
    }
  }

  /** The bytes of one row: the query path is interned as it is written. */
  method RowBytes(table: StringTable, demand: EntityDemand, previousStart: int) returns (bytes: seq<byte>)
    requires table.Valid() && |demand.others| == OTHER_FLAGS
    modifies table
    ensures table.Valid() && old(table.values) <= table.values
    ensures Spelled(table.values, RowTokens(demand, previousStart)) && bytes == Bytes(table.values, RowTokens(demand, previousStart))
  {
    hide TableFormed, Interned, Bytes, RowTokens, Spelled, Encode, Header, Unsigned, IndexOf;
    bytes := Encode(Header(demand)) + Encode(Unsigned(demand.location.startByte - previousStart))
      + Encode(Unsigned(demand.location.endByte - demand.location.startByte));
    if demand.query.Some? {
      var query := demand.query.value;
      InternedIs(table.values, query.path);
      var path := table.Intern(query.path);
      bytes := bytes + Encode(path) + Encode(Unsigned(query.startByte)) + Encode(Unsigned(query.endByte - query.startByte));
    }
    RowSpells(table.values, demand, previousStart);
  }

  lemma RowSpells(strings: Dictionary, demand: EntityDemand, previousStart: int)
    requires |demand.others| == OTHER_FLAGS && (demand.query.Some? ==> demand.query.value.path in strings)
    ensures Spelled(strings, RowTokens(demand, previousStart))
    ensures Bytes(strings, RowTokens(demand, previousStart))
         == Encode(Header(demand)) + Encode(Unsigned(demand.location.startByte - previousStart))
           + Encode(Unsigned(demand.location.endByte - demand.location.startByte))
           + (if demand.query.Some? then
                Encode(IndexOf(strings, demand.query.value.path)) + Encode(Unsigned(demand.query.value.startByte))
                + Encode(Unsigned(demand.query.value.endByte - demand.query.value.startByte))
              else [])
  {
    HeaderReads(demand);
    hide Encode, Header, IndexOf, Unsigned, FlagAt, FlagOf, Bit;
    var head := [Num(Header(demand)), Num(Unsigned(demand.location.startByte - previousStart)), Num(Unsigned(demand.location.endByte - demand.location.startByte))];
    ThreeBytes(strings, head[0], head[1], head[2]);
    if demand.query.Some? {
      var query := demand.query.value;
      var tail := [Text(query.path, 1, 0), Num(Unsigned(query.startByte)), Num(Unsigned(query.endByte - query.startByte))];
      ThreeBytes(strings, tail[0], tail[1], tail[2]);
      BytesConcat(strings, head, tail);
      assert IndexOf(strings, query.path) * 1 + 0 == IndexOf(strings, query.path);
    } else {
      assert RowTokens(demand, previousStart) == head;
    }
  }

  lemma ThreeBytes(dict: Dictionary, a: Token, b: Token, c: Token)
    ensures Bytes(dict, [a, b, c]) == TokenBytes(dict, a) + TokenBytes(dict, b) + TokenBytes(dict, c)
  {
    hide TokenBytes;
    OneToken(dict, a);
    OneToken(dict, b);
    OneToken(dict, c);
    BytesConcat(dict, [a], [b]);
    BytesConcat(dict, [a, b], [c]);
    assert [a] + [b] == [a, b] && [a, b] + [c] == [a, b, c];
  }

  /** `CompactDemandsV3From`. */
  method CompactFrom(demands: seq<EntityDemand>) returns (compact: Compact)
    requires AllFormed(demands)
    ensures CompactOf(demands, compact)
  {
    hide TableFormed, Interned, Encoded, Split, AddDemand, Bytes, RowsTokens, RowTokens, Spelled, EncodedRun, IndexOf, Distinct, Joins, LastStart, RunFormed, Flatten;
    var table := new StringTable();
    var groups: seq<CompactGroup> := [];
    var previousStart := 0;
    NoGroups(table.values);
    for i := 0 to |demands|
      invariant table.Valid() && fresh(table)
      invariant Encoded(table.values, Split(demands[..i]), groups)
      invariant previousStart == LastStart(Split(demands[..i]))
      modifies table
    {
      var demand := demands[i];
      ghost var runs := Split(demands[..i]);
      SplitNext(demands, i);
      SplitMeaning(demands[..i]);
      InternedIs(table.values, demand.location.path);
      ghost var before := table.values;
      var path := table.Intern(demand.location.path);
      EncodedGrows(before, table.values, runs, groups);
      LastPath(table.values, runs, groups, demand, path);
      if groups == [] || groups[|groups| - 1].path != path || demand.location.startByte < previousStart {
        before := table.values;
        var row := RowBytes(table, demand, 0);
        RowAdded(before, table.values, runs, demand, groups, path, row);
        groups := groups + [CompactGroup(path, row)];
      } else {
        before := table.values;
        var row := RowBytes(table, demand, previousStart);
        RowAdded(before, table.values, runs, demand, groups, path, row);
        var group := groups[|groups| - 1];
        groups := groups[|groups| - 1 := group.(demands := group.demands + row)];
      }
      previousStart := demand.location.startByte;
    }
    assert demands[..|demands|] == demands;
    compact := Compact(groups, table.values);
    TableDistinct(table.indexes, table.values);
  }

  lemma TableDistinct(indexes: map<string, nat>, values: Dictionary)
    requires TableFormed(indexes, values)
    ensures Distinct(values)
  {
  }

  function LastStart(runs: Runs): int {
    if runs == [] || runs[|runs| - 1] == [] then 0 else runs[|runs| - 1][|runs[|runs| - 1]| - 1].location.startByte
  }

  lemma NoGroups(strings: Dictionary)
    ensures Split([]) == [] && Encoded(strings, [], []) && LastStart([]) == 0
  {
  }

  lemma SplitNext(demands: seq<EntityDemand>, i: nat)
    requires i < |demands|
    ensures demands[..0] == [] && Split(demands[..i + 1]) == AddDemand(Split(demands[..i]), demands[i])
  {
    assert demands[..i + 1][..i] == demands[..i];
  }

  /** A new group opens exactly where the split opens a run. */
  lemma LastPath(strings: Dictionary, runs: Runs, groups: seq<CompactGroup>, demand: EntityDemand, path: nat)
    requires Encoded(strings, runs, groups) && forall i :: 0 <= i < |runs| ==> RunFormed(runs[i])
    requires demand.location.path in strings && path == IndexOf(strings, demand.location.path)
    ensures |groups| == |runs|
    ensures (groups == [] || groups[|groups| - 1].path != path || demand.location.startByte < LastStart(runs))
      <==> !(runs != [] && Joins(runs[|runs| - 1], demand))
  {
    hide Bytes, RowsTokens, Spelled;
    if runs != [] {
      var run := runs[|runs| - 1];
      assert EncodedRun(strings, run, groups[|runs| - 1]);
      assert |run| > 1 ==> run[|run| - 1].location.path == run[0].location.path;
      assert run[0].location.path == demand.location.path <==> groups[|runs| - 1].path == path;
    }
  }

  /** The groups once the demand's row is appended. */
  lemma RowAdded(before: Dictionary, strings: Dictionary, runs: Runs, demand: EntityDemand, groups: seq<CompactGroup>, path: nat, row: seq<byte>)
    requires Encoded(before, runs, groups) && before <= strings && |demand.others| == OTHER_FLAGS
    requires demand.location.path in before && path == IndexOf(before, demand.location.path)
    requires Spelled(strings, RowTokens(demand, if runs != [] && Joins(runs[|runs| - 1], demand) then LastStart(runs) else 0))
    requires row == Bytes(strings, RowTokens(demand, if runs != [] && Joins(runs[|runs| - 1], demand) then LastStart(runs) else 0))
    ensures |groups| == |runs|
    ensures var joins := runs != [] && Joins(runs[|runs| - 1], demand);
      var next := if joins then groups[|groups| - 1 := groups[|groups| - 1].(demands := groups[|groups| - 1].demands + row)]
        else groups + [CompactGroup(path, row)];
      Encoded(strings, AddDemand(runs, demand), next) && LastStart(AddDemand(runs, demand)) == demand.location.startByte
  {
    hide EncodedRun, Joins, RowTokens, Bytes, Spelled, IndexOf, RowsTokens;
    EncodedGrows(before, strings, runs, groups);
    if runs != [] && Joins(runs[|runs| - 1], demand) {
      JoinsLast(runs[|runs| - 1], demand);
      RunJoined(strings, runs[|runs| - 1], demand, groups[|runs| - 1], row);
    } else {
      IndexStable(before, strings, demand.location.path);
      RunOpened(strings, demand, path, row);
    }
  }

  lemma JoinsLast(run: seq<EntityDemand>, demand: EntityDemand)
    requires Joins(run, demand)
    ensures run != []
  {
  }

  lemma RunJoined(strings: Dictionary, run: seq<EntityDemand>, demand: EntityDemand, group: CompactGroup, row: seq<byte>)
    requires EncodedRun(strings, run, group) && |demand.others| == OTHER_FLAGS
    requires Spelled(strings, RowTokens(demand, run[|run| - 1].location.startByte))
    requires row == Bytes(strings, RowTokens(demand, run[|run| - 1].location.startByte))
    ensures EncodedRun(strings, run + [demand], group.(demands := group.demands + row))
  {
    hide RowTokens, RowsTokens, Bytes, IndexOf, Spellable;
    RowsAppend(run, demand, 0);
    BytesConcat(strings, RowsTokens(run, 0), RowTokens(demand, run[|run| - 1].location.startByte));
  }

  lemma RunOpened(strings: Dictionary, demand: EntityDemand, path: nat, row: seq<byte>)
    requires |demand.others| == OTHER_FLAGS && demand.location.path in strings && path == IndexOf(strings, demand.location.path)
    requires Spelled(strings, RowTokens(demand, 0)) && row == Bytes(strings, RowTokens(demand, 0))
    ensures EncodedRun(strings, [demand], CompactGroup(path, row))
  {
    hide RowTokens, Bytes, IndexOf, Spellable;
    RowsAppend([], demand, 0);
    assert [] + [demand] == [demand];
    assert RowsTokens([], 0) + RowTokens(demand, 0) == RowTokens(demand, 0);
  }

  // --- counting ---

  /** What is counted so far, with what remains. */
  function Plus(rows: nat, queries: nat, rest: Option<Shape>): Option<Shape> {
    match rest
    case None => None
    case Some(shape) => Some(Shape(rows + shape.rows, queries + shape.queries))
  }

  function Both(a: Option<Shape>, b: Option<Shape>): Option<Shape> {
    match a
    case None => None
    case Some(shape) => Plus(shape.rows, shape.queries, b)
  }

  lemma ShapeNext(packed: seq<byte>, rows: nat, queries: nat, others: Option<Shape>)
    requires packed != []
    ensures var raw := TakeRaw(packed, 0);
      Plus(rows, queries, Both(RowsShape(packed), others))
      == if raw.Bad? then None
         else Plus(rows + 1, queries + if raw.value.query.Some? then 1 else 0, Both(RowsShape(raw.rest), others))
  {
    hide TakeRaw;
  }

  lemma ShapeFirst(groups: seq<CompactGroup>, i: nat)
    requires i < |groups|
    ensures GroupsShape(groups[i..]) == Both(RowsShape(groups[i].demands), GroupsShape(groups[i + 1..]))
  {
    hide RowsShape;
    assert groups[i..][1..] == groups[i + 1..];
  }

  lemma ShapeEnds(groups: seq<CompactGroup>, others: Option<Shape>, rows: nat, queries: nat)
    ensures groups[0..] == groups && Plus(0, 0, GroupsShape(groups)) == GroupsShape(groups)
    ensures Both(RowsShape([]), others) == others
    ensures Plus(rows, queries, GroupsShape(groups[|groups|..])) == Some(Shape(rows, queries))
  {
  }

  /** `demandShape`. */
  method DemandShape(groups: seq<CompactGroup>) returns (shape: Option<Shape>)
    ensures shape == GroupsShape(groups)
  {
    hide *;
    var rows: nat, queries: nat := 0, 0;
    ShapeEnds(groups, None, 0, 0);
    for i := 0 to |groups|
      invariant GroupsShape(groups) == Plus(rows, queries, GroupsShape(groups[i..]))
    {
      ShapeFirst(groups, i);
      var packed := groups[i].demands;
      ghost var others := GroupsShape(groups[i + 1..]);
      while packed != []
        invariant GroupsShape(groups) == Plus(rows, queries, Both(RowsShape(packed), others))
        decreases |packed|
      {
        ShapeNext(packed, rows, queries, others);
        var raw := TakeRaw(packed, 0);
        match raw {
          case Bad => return None;
          case Good(row, rest) =>
            rows := rows + 1;
            if row.query.Some? { queries := queries + 1; }
            packed := rest;
        }
      }
      ShapeEnds(groups, others, rows, queries);
    }
    ShapeEnds(groups, None, rows, queries);
    shape := Some(Shape(rows, queries));
  }

  // --- expanding ---

  function Prefixed(demands: seq<EntityDemand>, rest: Option<seq<EntityDemand>>): Option<seq<EntityDemand>> {
    match rest
    case None => None
    case Some(more) => Some(demands + more)
  }

  function Followed(a: Option<seq<EntityDemand>>, b: Option<seq<EntityDemand>>): Option<seq<EntityDemand>> {
    match a
    case None => None
    case Some(demands) => Prefixed(demands, b)
  }

  /** The groups still to do, as the current one's rows and the others. */
  lemma ExpandFirst(strings: Dictionary, groups: seq<CompactGroup>, i: nat, demands: seq<EntityDemand>)
    requires i < |groups|
    ensures ExpandGroups(strings, groups[i..]) == Followed(ExpandGroup(strings, groups[i]), ExpandGroups(strings, groups[i + 1..]))
    ensures GroupsShape(groups[i..]) == Both(RowsShape(groups[i].demands), GroupsShape(groups[i + 1..]))
  {
    hide ExpandGroup, RowsShape;
    assert groups[i..][1..] == groups[i + 1..];
  }

  lemma ExpandNext(strings: Dictionary, path: Path, packed: seq<byte>, previousStart: nat, demands: seq<EntityDemand>, others: Option<seq<EntityDemand>>)
    requires packed != []
    ensures var raw := TakeRaw(packed, previousStart);
      && (raw.Bad? ==> RowsShape(packed) == None)
      && (raw.Good? ==>
            && (!Unwrapped(raw.value, previousStart) || !Resolves(strings, raw.value) ==> ExpandRows(strings, path, packed, previousStart) == None)
            && (Unwrapped(raw.value, previousStart) && Resolves(strings, raw.value) ==>
                  Prefixed(demands, Followed(ExpandRows(strings, path, packed, previousStart), others))
                  == Prefixed(demands + [Expanded(strings, path, raw.value)], Followed(ExpandRows(strings, path, raw.rest, raw.value.start), others)))
            && RowsShape(packed) == Plus(1, if raw.value.query.Some? then 1 else 0, RowsShape(raw.rest)))
  {
    hide TakeRaw, Unwrapped, Expanded, Resolves, Prefixed, Followed;
    RawAnywhere(packed, previousStart, 0);
    var raw := TakeRaw(packed, previousStart);
    if raw.Good? && Unwrapped(raw.value, previousStart) && Resolves(strings, raw.value) {
      PrefixedCons(demands, Expanded(strings, path, raw.value), ExpandRows(strings, path, raw.rest, raw.value.start), others);
    }
  }

  lemma PrefixedCons(demands: seq<EntityDemand>, first: EntityDemand, rest: Option<seq<EntityDemand>>, others: Option<seq<EntityDemand>>)
    ensures rest.None? ==> Prefixed(demands + [first], Followed(rest, others)) == None
    ensures rest.None? ==> Prefixed(demands, Followed(None, others)) == None
    ensures rest.Some? ==>
      Prefixed(demands, Followed(Some([first] + rest.value), others)) == Prefixed(demands + [first], Followed(rest, others))
  {
    if rest.Some? && others.Some? {
      assert demands + (([first] + rest.value) + others.value) == (demands + [first]) + (rest.value + others.value);
    }
  }

  /** `Expand`: the query locations go into an arena of exactly the counted size, whose index never
  passes its end. */
  method Expand(compact: Compact) returns (result: Option<seq<EntityDemand>>)
    ensures result == ExpandGroups(compact.strings, compact.groups)
  {
    hide TakeRaw, Unwrapped, DemandOf, ExpandRows, RowsShape, ExpandGroup, ExpandGroups, GroupsShape, Signed;
    var strings, groups := compact.strings, compact.groups;
    var counted := DemandShape(groups);
    if counted.None? {
      ShapeRefuses(strings, groups);
      return None;
    }
    var queries := new Location[counted.value.queries](_ => Location("", 0, 0));
    var queryIndex := 0;
    var demands: seq<EntityDemand> := [];
    assert groups[0..] == groups;
    WholeLeft(strings, groups);
    for i := 0 to |groups|
      invariant ExpandGroups(strings, groups) == Prefixed(demands, ExpandGroups(strings, groups[i..]))
      invariant Plus(0, queryIndex, GroupsShape(groups[i..])).Some?
      invariant Plus(0, queryIndex, GroupsShape(groups[i..])).value.queries == queries.Length
    {
      ExpandFirst(strings, groups, i, demands);
      GroupIs(strings, groups[i]);
      if groups[i].path >= |strings| { return None; }
      var path := strings[groups[i].path];
      var packed, previousStart := groups[i].demands, 0;
      ghost var others := ExpandGroups(strings, groups[i + 1..]);
      while packed != []
        invariant ExpandGroups(strings, groups) == Prefixed(demands, Followed(ExpandRows(strings, path, packed, previousStart), others))
        invariant previousStart >= 0
        invariant var left := Plus(0, queryIndex, Both(RowsShape(packed), GroupsShape(groups[i + 1..])));
          left.Some? && left.value.queries == queries.Length
        decreases |packed|
      {
        ExpandNext(strings, path, packed, previousStart, demands, others);
        var raw := TakeRaw(packed, previousStart);
        var row := raw.value;
        if !Unwrapped(row, previousStart) { return None; }
        var query: Option<Location> := None;
        if row.query.Some? {
          if row.query.value.path >= |strings| { return None; }
          queries[queryIndex] := Location(strings[row.query.value.path], Signed(row.query.value.start), Signed(row.query.value.start + row.query.value.length));
          query := Some(queries[queryIndex]);
          queryIndex := queryIndex + 1;
        }
        demands := demands + [DemandOf(row.header, Location(path, Signed(row.start), Signed(row.start + row.length)), query)];
        previousStart, packed := row.start, raw.rest;
      }
      RowsDone(strings, path, previousStart, demands, others);
    }
    NoneLeft(strings, groups, demands);
    result := Some(demands);
  }

  lemma NoneLeft(strings: Dictionary, groups: seq<CompactGroup>, demands: seq<EntityDemand>)
    ensures Prefixed(demands, ExpandGroups(strings, groups[|groups|..])) == Some(demands)
  {
    assert demands + [] == demands;
  }

  lemma WholeLeft(strings: Dictionary, groups: seq<CompactGroup>)
    ensures Prefixed([], ExpandGroups(strings, groups)) == ExpandGroups(strings, groups)
    ensures groups[0..] == groups
  {
    hide ExpandGroup;
    var all := ExpandGroups(strings, groups);
    if all.Some? { assert [] + all.value == all.value; }
  }

  lemma GroupIs(strings: Dictionary, group: CompactGroup)
    ensures ExpandGroup(strings, group) == if group.path >= |strings| then None else ExpandRows(strings, strings[group.path], group.demands, 0)
  {
    hide ExpandRows;
  }

  lemma RowsDone(strings: Dictionary, path: Path, previousStart: nat, demands: seq<EntityDemand>, others: Option<seq<EntityDemand>>)
    ensures Prefixed(demands, Followed(ExpandRows(strings, path, [], previousStart), others)) == Prefixed(demands, others)
    ensures RowsShape([]) == Some(Shape(0, 0))
  {
    if others.Some? { assert [] + others.value == others.value; }
  }

  lemma ShapeRefuses(strings: Dictionary, groups: seq<CompactGroup>)
    requires GroupsShape(groups).None?
    ensures ExpandGroups(strings, groups).None?
  {
    if ExpandGroups(strings, groups).Some? { GroupsShapeCounts(strings, groups); }
  }

  // --- filtering ---

  /** `appendCompactDemandsWithFlag`. */
  method AppendWithFlag(target: seq<EntityDemand>, group: CompactGroup, strings: Dictionary, flag: nat) returns (result: Option<seq<EntityDemand>>)
    requires flag < FLAGS
    ensures result == Prefixed(target, FilterGroup(strings, group, flag))
  {
    hide TakeRaw, Unwrapped, DemandOf, FlagAt;
    if group.path >= |strings| { return None; }
    var path := strings[group.path];
    var packed, previousStart, demands := group.demands, 0, target;
    while packed != []
      invariant previousStart >= 0
      invariant Prefixed(target, FilterGroup(strings, group, flag)) == Prefixed(demands, FilterRows(strings, path, packed, previousStart, flag))
      decreases |packed|
    {
      FilterNext(strings, path, packed, previousStart, flag, demands);
      var raw := TakeRaw(packed, previousStart);
      if raw.Bad? { return None; }
      var row := raw.value;
      if !Unwrapped(row, previousStart) { return None; }
      if FlagAt(row.header, flag) {
        if row.query.Some? && row.query.value.path >= |strings| { return None; }
        demands := demands + [Expanded(strings, path, row)];
      }
      previousStart, packed := row.start, raw.rest;
    }
    assert demands + [] == demands;
    result := Some(demands);
  }

  lemma FilterNext(strings: Dictionary, path: Path, packed: seq<byte>, previousStart: nat, flag: nat, demands: seq<EntityDemand>)
    requires packed != [] && flag < FLAGS
    ensures var raw := TakeRaw(packed, previousStart);
      && (raw.Bad? ==> FilterRows(strings, path, packed, previousStart, flag) == None)
      && (raw.Good? ==>
            var row := raw.value;
            if !Unwrapped(row, previousStart) || (FlagAt(row.header, flag) && !Resolves(strings, row)) then
              FilterRows(strings, path, packed, previousStart, flag) == None
            else
              Prefixed(demands, FilterRows(strings, path, packed, previousStart, flag))
              == Prefixed(if FlagAt(row.header, flag) then demands + [Expanded(strings, path, row)] else demands,
                          FilterRows(strings, path, raw.rest, row.start, flag)))
  {
    hide TakeRaw, Unwrapped, FlagAt, Expanded;
    var raw := TakeRaw(packed, previousStart);
    if raw.Good? {
      var rest := FilterRows(strings, path, raw.rest, raw.value.start, flag);
      if rest.Some? && Unwrapped(raw.value, previousStart) && FlagAt(raw.value.header, flag) && Resolves(strings, raw.value) {
        var first := Expanded(strings, path, raw.value);
        assert demands + ([first] + rest.value) == (demands + [first]) + rest.value;
      }
    }
  }

  // --- the round trip of the two methods ---

  /** Compacting and expanding, end to end, on every placed snapshot. */
  method RoundTrip(demands: seq<EntityDemand>) returns (compact: Compact, expanded: Option<seq<EntityDemand>>)
    requires AllFormed(demands)
    ensures AllDemandsPlaced(demands) && |compact.strings| < U64_LIMIT ==> expanded == Some(demands)
  {
    hide *;
    compact := CompactFrom(demands);
    expanded := Expand(compact);
    if AllDemandsPlaced(demands) && |compact.strings| < U64_LIMIT {
      CompactRoundTrip(demands, compact);
    }
  }
}
