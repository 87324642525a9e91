/** One materialisation gives what a full rematerialisation gives, although only changed
groups run against the checker and only flipped contributions are refreshed. */
module Freshness {
  import opened SortedRows
  import opened Order
  import opened Facts
  import opened PathTable
  import opened Contributions
  import opened Oracles
  import opened Engine

  ghost function AllStructural(o: Oracle, groups: Groups): set<SymbolID> {
    BatchStructural(o, groups, groups.Keys)
  }

  /** Kept contributions still carry their groups' structural symbols. */
  lemma KeptUnionIsBatch(o: Oracle, c: Closure, groups: Groups)
    requires Lawful(o) && Retention(c, o, groups)
    ensures KeptUnion(c, groups) == BatchStructural(o, groups, Kept(c, groups))
  {
    forall path | path in Kept(c, groups)
      ensures SetOf(c.retained[path].structural) == Structural(o, path, groups[path])
    {
      assert Answered(o, path, groups[path], c.lastSuppression.value).structural == Answered(o, path, groups[path], {}).structural;
    }
    forall symbol ensures symbol in KeptUnion(c, groups) <==> symbol in BatchStructural(o, groups, Kept(c, groups)) {
      if symbol in KeptUnion(c, groups) {
        var path :| path in Kept(c, groups) && symbol in c.retained[path].structural;
        assert symbol in SetOf(c.retained[path].structural);
        assert symbol in Structural(o, path, groups[path]);
      }
      if symbol in BatchStructural(o, groups, Kept(c, groups)) {
        var path :| path in Kept(c, groups) && symbol in Structural(o, path, groups[path]);
        assert symbol in SetOf(c.retained[path].structural);
      }
    }
  }

  lemma BatchUnion(o: Oracle, groups: Groups, a: set<Path>, b: set<Path>)
    ensures BatchStructural(o, groups, a) + BatchStructural(o, groups, b) == BatchStructural(o, groups, a + b)
  {
    var both := BatchStructural(o, groups, a + b);
    forall symbol ensures symbol in both <==> symbol in BatchStructural(o, groups, a) || symbol in BatchStructural(o, groups, b) {
      if symbol in both {
        var path :| path in a + b && path in groups && symbol in Structural(o, path, groups[path]);
        assert path in a || path in b;
      }
    }
  }

  /** The suppression a recomputed batch runs under is the whole structural set; the
  recorded union agrees with it on every durable symbol. */
  lemma UnionMeaning(o: Oracle, c: Closure, groups: Groups)
    requires Lawful(o) && Retention(c, o, groups)
    ensures KeptUnion(c, groups) + BatchStructural(o, groups, Recomputed(c, groups)) == AllStructural(o, groups)
    ensures forall symbol :: DurableSymbolID(symbol) ==> (symbol in UnionOf(o, c, groups) <==> symbol in AllStructural(o, groups))
  {
    KeptUnionIsBatch(o, c, groups);
    BatchUnion(o, groups, Kept(c, groups), Recomputed(c, groups));
    assert Kept(c, groups) + Recomputed(c, groups) == groups.Keys;
  }

  lemma RefreshScope(o: Oracle, c: Closure, groups: Groups)
    requires Lawful(o) && Retention(c, o, groups)
    ensures UnionOf(o, c, groups) + BatchStructural(o, groups, Refreshed(o, c, groups)) == UnionOf(o, c, groups)
  {
    KeptUnionIsBatch(o, c, groups);
    BatchUnion(o, groups, Kept(c, groups), Refreshed(o, c, groups));
    assert Kept(c, groups) + Refreshed(o, c, groups) == Kept(c, groups);
  }

  /** Descriptor symbols of a durable answer are durable, whatever it was resolved under. */
  lemma DurableAgreement(o: Oracle, path: Path, run: Run, s: set<SymbolID>, a: set<SymbolID>, b: set<SymbolID>)
    requires Lawful(o) && Answered(o, path, run, s).durable
    requires forall symbol :: DurableSymbolID(symbol) ==> (symbol in a <==> symbol in b)
    ensures Answered(o, path, run, a) == Answered(o, path, run, b)
  {
    assert Answered(o, path, run, s).descriptorSymbols == Answered(o, path, run, a).descriptorSymbols;
    assert AgreeOn(Answered(o, path, run, a).descriptorSymbols, a, b);
  }

  /** Suppression freshness. A recomputed or refreshed group's contribution, and a kept
  one up to its released rows, is the answer under the whole structural set. */
  lemma SuppressionFresh(o: Oracle, c: Closure, groups: Groups, path: Path)
    requires Lawful(o) && Retention(c, o, groups) && path in groups
    ensures path in Recomputed(c, groups) + Refreshed(o, c, groups) ==>
      NextContribution(o, c, groups, path) == Answered(o, path, groups[path], AllStructural(o, groups))
    ensures path !in Recomputed(c, groups) + Refreshed(o, c, groups) ==>
      && c.lastSuppression.Some?
      && NextContribution(o, c, groups, path) == WithoutRows(Answered(o, path, groups[path], AllStructural(o, groups)))
      && Answered(o, path, groups[path], AllStructural(o, groups)) == Answered(o, path, groups[path], c.lastSuppression.value)
  {
    UnionMeaning(o, c, groups);
    RefreshScope(o, c, groups);
    if path !in Recomputed(c, groups) {
      var last := c.lastSuppression.value;
      var union := UnionOf(o, c, groups);
      DurableAgreement(o, path, groups[path], last, union, AllStructural(o, groups));
      if path !in Refreshed(o, c, groups) {
        assert AgreeOn(c.retained[path].descriptorSymbols, union, last);
        assert Answered(o, path, groups[path], union) == Answered(o, path, groups[path], last);
      }
    }
  }

  /** The commit keeps the retention invariant for the union it records. */
  lemma CommitKeepsRetention(o: Oracle, c: Closure, groups: Groups)
    requires Lawful(o) && Retention(c, o, groups)
    ensures Retention(Released(Materialized(o, c, groups)), o, groups)
  {
    var next := Released(Materialized(o, c, groups));
    UnionMeaning(o, c, groups);
    forall path | path in next.retained && path in groups
      ensures next.retained[path].durable
      ensures next.retained[path].demands == groups[path]
      ensures next.retained[path] == WithoutRows(Answered(o, path, groups[path], UnionOf(o, c, groups)))
    {
      SuppressionFresh(o, c, groups, path);
      var all := AllStructural(o, groups);
      assert Answered(o, path, groups[path], all).durable;
      DurableAgreement(o, path, groups[path], all, all, UnionOf(o, c, groups));
    }
  }

  /** The new async cache is current for every group it holds. */
  lemma CommitKeepsAsync(o: Oracle, c: Closure, groups: Groups)
    requires forall path :: path in groups ==> AsyncAt(o, c, groups, path) == AsyncFacts(o, groups, path)
    ensures AsyncCurrent(Released(Materialized(o, c, groups)), o, groups)
  {
  }

  /** No operation is planned from released rows: wherever the manifest names a path, or
  when nothing was kept, the table's rows are those of a full rematerialisation. */
  lemma TableRowsFresh(o: Oracle, c: Closure, groups: Groups, path: Path)
    requires Lawful(o) && Retention(c, o, groups)
    requires AsyncAt(o, c, groups, path) == AsyncFacts(o, groups, path)
    requires path !in groups || path in Recomputed(c, groups) + Refreshed(o, c, groups)
    ensures RowsAt(NextTable(o, c, groups), path) == FullRows(o, groups, path)
  {
    if path in groups {
      SuppressionFresh(o, c, groups, path);
    }
  }
}
