/** Compacting and expanding demand snapshots, as loops, and the round trip
(internal/typefacts/protocolv3_compact.go:112-448, crates/typefacts/src/v3.rs:1512-1627). */
module CompactCodecs {
  import opened Order
  import opened SortedRows
  import opened Facts
  import opened Varints
  import opened PackedTokens
  import opened PackedLocations
  import opened PackedEntities
  import opened PackedWriters
  import opened CompactDemands

  type Runs = seq<seq<EntityDemand>>

  // --- grouping ---

  /** The demand joins the last group: same path, and not before its last start. */
  predicate Joins(run: seq<EntityDemand>, demand: EntityDemand) {
    run != [] && run[|run| - 1].location.path == demand.location.path && run[|run| - 1].location.startByte <= demand.location.startByte
  }

  function AddDemand(runs: Runs, demand: EntityDemand): Runs {
    if runs != [] && Joins(runs[|runs| - 1], demand) then runs[|runs| - 1 := runs[|runs| - 1] + [demand]] else runs + [[demand]]
  }

  /** Groups in input order; a path or an earlier start opens a new one. */
  function Split(demands: seq<EntityDemand>): Runs {
    if demands == [] then [] else AddDemand(Split(demands[..|demands| - 1]), demands[|demands| - 1])
  }

  function Flatten(runs: Runs): seq<EntityDemand> {
    if runs == [] then [] else Flatten(runs[..|runs| - 1]) + runs[|runs| - 1]
  }

  predicate RunFormed(run: seq<EntityDemand>) {
    run != [] && forall k :: 0 < k < |run| ==> run[k].location.path == run[0].location.path && run[k - 1].location.startByte <= run[k].location.startByte
  }

  lemma {:induction false} SplitMeaning(demands: seq<EntityDemand>)
    ensures Flatten(Split(demands)) == demands
    ensures forall i :: 0 <= i < |Split(demands)| ==> RunFormed(Split(demands)[i])
    ensures forall i, k :: 0 <= i < |Split(demands)| && 0 <= k < |Split(demands)[i]| ==> Split(demands)[i][k] in demands
  {
    if demands != [] {
      var front, last := demands[..|demands| - 1], demands[|demands| - 1];
      SplitMeaning(front);
      assert demands == front + [last];
      Added(Split(front), last);
      hide RunFormed, Flatten;
      forall i, k | 0 <= i < |Split(demands)| && 0 <= k < |Split(demands)[i]| ensures Split(demands)[i][k] in demands {
        assert Split(demands)[i][k] == last || Split(demands)[i][k] in front;
      }
    }
  }

  lemma Added(runs: Runs, demand: EntityDemand)
    requires forall i :: 0 <= i < |runs| ==> RunFormed(runs[i])
    ensures Flatten(AddDemand(runs, demand)) == Flatten(runs) + [demand]
    ensures forall i :: 0 <= i < |AddDemand(runs, demand)| ==> RunFormed(AddDemand(runs, demand)[i])
    ensures forall i, k :: 0 <= i < |AddDemand(runs, demand)| && 0 <= k < |AddDemand(runs, demand)[i]| ==>
      AddDemand(runs, demand)[i][k] == demand || (i < |runs| && k < |runs[i]| && AddDemand(runs, demand)[i][k] == runs[i][k])
  {
    var next := AddDemand(runs, demand);
    if runs != [] && Joins(runs[|runs| - 1], demand) {
      var n := |runs| - 1;
      assert next[..n] == runs[..n];
      JoinedFormed(runs[n], demand);
      hide RunFormed, Joins;
      assert Flatten(runs[..n]) + (runs[n] + [demand]) == (Flatten(runs[..n]) + runs[n]) + [demand];
    } else {
      assert next[..|runs|] == runs;
      hide Joins;
    }
  }

  lemma JoinedFormed(run: seq<EntityDemand>, demand: EntityDemand)
    requires RunFormed(run) && Joins(run, demand)
    ensures RunFormed(run + [demand])
  {
    assert |run| > 1 ==> run[|run| - 1].location.path == run[0].location.path;
  }

  // --- the encoded groups ---

  ghost predicate EncodedRun(strings: Dictionary, run: seq<EntityDemand>, group: CompactGroup) {
    && run != [] && AllFormed(run) && run[0].location.path in strings && group.path == IndexOf(strings, run[0].location.path)
    && Spelled(strings, RowsTokens(run, 0)) && group.demands == Bytes(strings, RowsTokens(run, 0))
  }

  ghost predicate Encoded(strings: Dictionary, runs: Runs, groups: seq<CompactGroup>) {
    |groups| == |runs| && forall i :: 0 <= i < |runs| ==> EncodedRun(strings, runs[i], groups[i])
  }

  /** What `CompactDemandsV3From` and `compact_demands` make of a snapshot. */
  ghost predicate CompactOf(demands: seq<EntityDemand>, compact: Compact) {
    Distinct(compact.strings) && Encoded(compact.strings, Split(demands), compact.groups)
  }

  // --- the round trip ---

  lemma TakeNum(dict: Dictionary, n: nat, rest: seq<Token>)
    requires n < U64_LIMIT
    ensures Take(Bytes(dict, [Num(n)] + rest)) == Good(n, Bytes(dict, rest))
  {
    ReadNum(dict, n, rest);
    TakesShortest(Bytes(dict, [Num(n)] + rest), 0);
    hide DecodeFrom, TakeFrom, Bytes;
  }

  lemma TakeText(dict: Dictionary, text: string, rest: seq<Token>)
    requires TokenFits(dict, Text(text, 1, 0))
    ensures Take(Bytes(dict, [Text(text, 1, 0)] + rest)) == Good(IndexOf(dict, text), Bytes(dict, rest))
  {
    ReadScaled(dict, text, 1, 0, rest);
    TakesShortest(Bytes(dict, [Text(text, 1, 0)] + rest), 0);
    hide DecodeFrom, TakeFrom, Bytes, IndexOf;
  }

  function RawOf(strings: Dictionary, demand: EntityDemand): RawRow
    requires DemandPlaced(demand)
  {
    RawRow(Header(demand), demand.location.startByte, demand.location.endByte - demand.location.startByte,
      match demand.query
      case None => None
      case Some(query) => Some(RawQuery(IndexOf(strings, query.path), query.startByte, query.endByte - query.startByte)))
  }

  function QueryTokens(query: Location): seq<Token> {
    [Text(query.path, 1, 0)] + ([Num(Unsigned(query.startByte))] + [Num(Unsigned(query.endByte - query.startByte))])
  }

  lemma RowTokensAre(demand: EntityDemand, previousStart: int)
    requires |demand.others| == OTHER_FLAGS
    ensures RowTokens(demand, previousStart)
         == [Num(Header(demand))] + ([Num(Unsigned(demand.location.startByte - previousStart))]
           + ([Num(Unsigned(demand.location.endByte - demand.location.startByte))]
             + (if demand.query.Some? then QueryTokens(demand.query.value) else [])))
  {
    hide Header, Unsigned;
  }

  lemma QueryReads(dict: Dictionary, query: Location, rest: seq<Token>)
    requires Placed(query) && Fits(dict, QueryTokens(query))
    ensures var input := Bytes(dict, QueryTokens(query) + rest);
      && Take(input) == Good(IndexOf(dict, query.path), Bytes(dict, [Num(query.startByte)] + ([Num(query.endByte - query.startByte)] + rest)))
      && Take(Take(input).rest) == Good(query.startByte, Bytes(dict, [Num(query.endByte - query.startByte)] + rest))
      && Take(Take(Take(input).rest).rest) == Good(query.endByte - query.startByte, Bytes(dict, rest))
  {
    hide Bytes, Take, Encode, IndexOf, TokenFits, Fits;
    var path, start, length := [Text(query.path, 1, 0)], [Num(query.startByte)], [Num(query.endByte - query.startByte)];
    assert QueryTokens(query) + rest == path + (start + (length + rest));
    FitsConcat(dict, path, start + length);
    OneFits(dict, path[0]);
    TakeText(dict, query.path, start + (length + rest));
    TakeNum(dict, query.startByte, length + rest);
    TakeNum(dict, query.endByte - query.startByte, rest);
  }

  lemma RowReads(dict: Dictionary, demand: EntityDemand, previousStart: int, rest: seq<Token>)
    requires DemandPlaced(demand) && 0 <= previousStart <= demand.location.startByte && Fits(dict, RowTokens(demand, previousStart))
    ensures TakeRaw(Bytes(dict, RowTokens(demand, previousStart) + rest), previousStart) == Good(RawOf(dict, demand), Bytes(dict, rest))
  {
    hide Bytes, Take, Encode, IndexOf, Fits, Header, Bit, QueryTokens;
    HeaderReads(demand);
    hide FlagAt, FlagOf, DemandFlags;
    var header, start := [Num(Header(demand))], [Num(demand.location.startByte - previousStart)];
    var length := [Num(demand.location.endByte - demand.location.startByte)];
    var query := if demand.query.Some? then QueryTokens(demand.query.value) else [];
    RowTokensAre(demand, previousStart);
    Fits4(dict, header, start, length, query);
    Nest4(header, start, length, query, rest);
    TakeNum(dict, Header(demand), start + (length + (query + rest)));
    TakeNum(dict, demand.location.startByte - previousStart, length + (query + rest));
    TakeNum(dict, demand.location.endByte - demand.location.startByte, query + rest);
    if demand.query.Some? {
      QueryReads(dict, demand.query.value, rest);
    } else {
      assert query + rest == rest;
    }
  }

  lemma RawExpands(dict: Dictionary, demand: EntityDemand, previousStart: int)
    requires DemandPlaced(demand) && 0 <= previousStart <= demand.location.startByte && Fits(dict, RowTokens(demand, previousStart))
    ensures var row := RawOf(dict, demand);
      Unwrapped(row, previousStart) && Resolves(dict, row) && Expanded(dict, demand.location.path, row) == demand
  {
    DemandReads(demand);
    hide Header, DemandOf, FlagAt;
    if demand.query.Some? {
      assert TokenFits(dict, RowTokens(demand, previousStart)[3]);
    }
    SignedPlaced(demand.location);
    if demand.query.Some? { SignedPlaced(demand.query.value); }
    hide Encode, Signed, Fits;
  }

  lemma SignedPlaced(location: Location)
    requires Placed(location)
    ensures Signed(location.startByte) == location.startByte && Signed(location.endByte) == location.endByte
  {
  }

  lemma {:induction false} RowsRoundTrip(dict: Dictionary, path: Path, run: seq<EntityDemand>, previousStart: int)
    requires AllDemandsPlaced(run) && AllFormed(run) && Fits(dict, RowsTokens(run, previousStart)) && 0 <= previousStart
    requires forall k :: 0 <= k < |run| ==> run[k].location.path == path
    requires run != [] ==> previousStart <= run[0].location.startByte
    requires forall k :: 0 < k < |run| ==> run[k - 1].location.startByte <= run[k].location.startByte
    ensures ExpandRows(dict, path, Bytes(dict, RowsTokens(run, previousStart)), previousStart) == Some(run)
  {
    if run == [] {
      assert Bytes(dict, []) == [];
    } else {
      var first, others := RowTokens(run[0], previousStart), RowsTokens(run[1..], run[0].location.startByte);
      hide Fits, RowTokens, TakeRaw, Unwrapped, Expanded, DemandPlaced;
      FitsConcat(dict, first, others);
      assert DemandPlaced(run[0]);
      RowReads(dict, run[0], previousStart, others);
      RawExpands(dict, run[0], previousStart);
      RowsRoundTrip(dict, path, run[1..], run[0].location.startByte);
      RowsAre(run, previousStart);
      assert run == [run[0]] + run[1..];
      assert Bytes(dict, first + others) != [] by { NotEmptyRow(dict, run[0], previousStart, others); }
      hide Bytes, RowsTokens;
    }
  }

  lemma RowsAre(run: seq<EntityDemand>, previousStart: int)
    requires run != [] && AllFormed(run)
    ensures AllFormed(run[1..])
    ensures RowsTokens(run, previousStart) == RowTokens(run[0], previousStart) + RowsTokens(run[1..], run[0].location.startByte)
  {
    hide RowTokens;
  }

  lemma NotEmptyRow(dict: Dictionary, demand: EntityDemand, previousStart: int, rest: seq<Token>)
    requires |demand.others| == OTHER_FLAGS
    ensures Bytes(dict, RowTokens(demand, previousStart) + rest) != []
  {
    var tokens := RowTokens(demand, previousStart) + rest;
    assert tokens[0] == Num(Header(demand));
    assert TokenBytes(dict, tokens[0]) != [];
    hide Header, RowTokens;
  }

  ghost predicate AllPlacedRuns(runs: Runs) {
    forall i :: 0 <= i < |runs| ==> RunFormed(runs[i]) && AllDemandsPlaced(runs[i])
  }

  lemma GroupRoundTrip(strings: Dictionary, run: seq<EntityDemand>, group: CompactGroup)
    requires EncodedRun(strings, run, group) && RunFormed(run) && AllDemandsPlaced(run) && |strings| < U64_LIMIT
    ensures ExpandGroup(strings, group) == Some(run)
  {
    hide Bytes, IndexOf, RowsTokens, ExpandRows, DemandPlaced;
    PlainRows(run, 0);
    SpelledSmall(strings, RowsTokens(run, 0));
    OnePath(run);
    assert DemandPlaced(run[0]);
    PlacedStart(run[0]);
    RowsRoundTrip(strings, run[0].location.path, run, 0);
  }

  lemma PlacedStart(demand: EntityDemand)
    requires DemandPlaced(demand)
    ensures 0 <= demand.location.startByte
  {
  }

  lemma {:induction false} OnePath(run: seq<EntityDemand>)
    requires RunFormed(run)
    ensures forall k :: 0 <= k < |run| ==> run[k].location.path == run[0].location.path
  {
  }

  lemma {:induction false} PlainRows(run: seq<EntityDemand>, previousStart: int)
    requires AllFormed(run)
    ensures forall k :: 0 <= k < |RowsTokens(run, previousStart)| && RowsTokens(run, previousStart)[k].Text? ==>
      RowsTokens(run, previousStart)[k].scale == 1 && RowsTokens(run, previousStart)[k].tag == 0
  {
    hide Header, Unsigned;
    if run != [] { PlainRows(run[1..], run[0].location.startByte); }
  }

  /** Plain indexes fit as long as the table is one a 64-bit program can count. */
  lemma SpelledSmall(strings: Dictionary, tokens: seq<Token>)
    requires Spelled(strings, tokens) && |strings| < U64_LIMIT && forall k :: 0 <= k < |tokens| && tokens[k].Text? ==> tokens[k].scale == 1 && tokens[k].tag == 0
    ensures Fits(strings, tokens)
  {
    forall k | 0 <= k < |tokens| ensures TokenFits(strings, tokens[k]) {
      assert Spellable(strings, tokens[k]);
    }
  }

  lemma {:induction false} GroupsRoundTrip(strings: Dictionary, runs: Runs, groups: seq<CompactGroup>)
    requires Encoded(strings, runs, groups) && AllPlacedRuns(runs) && |strings| < U64_LIMIT
    ensures ExpandGroups(strings, groups) == Some(FlattenFront(runs))
  {
    hide EncodedRun, RunFormed, AllDemandsPlaced, ExpandGroup;
    if runs != [] {
      GroupRoundTrip(strings, runs[0], groups[0]);
      GroupsRoundTrip(strings, runs[1..], groups[1..]);
    }
  }

  function FlattenFront(runs: Runs): seq<EntityDemand> {
    if runs == [] then [] else runs[0] + FlattenFront(runs[1..])
  }

  lemma {:induction false} FlattenAppend(runs: Runs, last: seq<EntityDemand>)
    ensures FlattenFront(runs + [last]) == FlattenFront(runs) + last
  {
    if runs == [] {
      assert [last][1..] == [];
    } else {
      FlattenAppend(runs[1..], last);
      assert (runs + [last])[1..] == runs[1..] + [last];
    }
  }

  lemma {:induction false} FlattenSame(runs: Runs)
    ensures FlattenFront(runs) == Flatten(runs)
  {
    if runs != [] {
      FlattenSame(runs[..|runs| - 1]);
      FlattenAppend(runs[..|runs| - 1], runs[|runs| - 1]);
      assert runs == runs[..|runs| - 1] + [runs[|runs| - 1]];
    }
  }

  /** Expanding a compacted snapshot returns it unchanged. */
  lemma CompactRoundTrip(demands: seq<EntityDemand>, compact: Compact)
    requires AllDemandsPlaced(demands) && CompactOf(demands, compact) && |compact.strings| < U64_LIMIT
    ensures ExpandGroups(compact.strings, compact.groups) == Some(demands)
  {
    hide RunFormed, Encoded, ExpandGroups, DemandPlaced;
    var runs := Split(demands);
    SplitMeaning(demands);
    forall i | 0 <= i < |runs| ensures AllDemandsPlaced(runs[i]) {
      forall k | 0 <= k < |runs[i]| ensures DemandPlaced(runs[i][k]) {
        assert runs[i][k] in demands;
      }
    }
    FlattenSame(runs);
    GroupsRoundTrip(compact.strings, runs, compact.groups);
  }
}
