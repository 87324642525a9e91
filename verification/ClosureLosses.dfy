/** An input on which an analyze whose demands are unchanged loses the client's reference lists
(crates/typefacts/src/session.rs:1020-1034, 1186-1254), followed through the joined session. */
module ClosureLosses {
  import opened Order
  import opened SortedRows
  import opened Facts
  import opened PackedIndexes
  import opened RetainedSymbols
  import opened SymbolPrograms
  import opened ClientPatches
  import opened ClientSymbols
  import opened ClientSymbolTables
  import opened ClosureSessions
  import R = ReferenceRows
  import S = ReferenceStates

  /** A cold analyze, an update of many files that changes nothing, and an analyze with the same demands: the
  symbol's list is there after the first and gone after the second, in every program that mentions it. */
  method PrefetchLosesLists(program: Program, scans: R.Scans, path: Path, id: SymbolID)
    returns (cold: PackedIndex<StoredSymbol>, warm: PackedIndex<StoredSymbol>)
    requires S.ScansFormed(scans) && ListsAre(program, scans) && id != "" && AliasOf(program, id) == ""
    requires path in scans && id in scans[path].refs
    ensures FreshViews(program, {id}, {id}, Viewed(Rows(cold)))
    ensures !FreshViews(program, {id}, {id}, Viewed(Rows(warm)))
  {
    hide ListsAre, FreshViews, S.HeldAll, S.Formed, S.Whole, ReadHeld, LeastClosed, Viewed, Rows, ValidSymbols, IndexOK, R.SpansAt, SetOf;
    hide SameSeeds, QuietOutside, OthersHeld, Anchored, AliasOf, Find;
    var session := new ClosureSession(scans, program);
    ghost var before, used := session.index.State(), session.index.used;
    var patched, changed, reply, read := session.Close(program, scans, {id}, [id], true, false);
    forall k ensures S.HeldAll(ReadHeld(before, used, reply.ids, false), scans, k) { ColdReads(before, used, reply.ids, k); }
    OnlyItself(program, id, session.reached);
    OnlyItself(program, id, session.full);
    cold := session.table.symbols;
    session.Rebuild(scans, {});
    before := session.index.State();
    assert session.table.affectedPaths == {};
    NothingMoved(program, id, scans, Viewed(Rows(cold)));
    patched, changed, reply, read := session.Close(program, scans, {id}, [id], false, true);
    OnlyItself(program, id, session.reached);
    OnlyItself(program, id, session.full);
    PrefetchedReadIff(before, {}, reply.ids, id);
    warm := session.table.symbols;
  }

  lemma OnlyItself(program: Program, id: SymbolID, reached: set<SymbolID>)
    requires id != "" && AliasOf(program, id) == ""
    requires LeastClosed(program, {id} - {""}, reached) || LeastClosed(program, SetOf([id]) - {""}, reached)
    ensures reached == {id}
  {
    hide AliasOf;
    assert SetOf([id]) - {""} == {id} - {""} == {id};
    assert AliasClosed(program, {id});
  }

  lemma NothingMoved(program: Program, id: SymbolID, scans: R.Scans, views: seq<Row<SymbolView>>)
    requires id != "" && AliasOf(program, id) == ""
    ensures SameSeeds(program, {id}, [id], {id}, {id}) && QuietOutside(program, {id}, {id}, scans, scans, {})
    ensures OthersHeld(program, program, {id}, views, {})
  {
    SameAsItself(program, id);
    hide AliasOf, R.SpansAt, SameFact;
    assert SetOf([id]) - {""} == {id} - {""} == {id};
    assert AliasClosed(program, {id});
  }

  lemma SameAsItself(program: Program, id: SymbolID)
    ensures SameFact(program, id, FactOf(program, id))
  {
  }
}
