/** When the client's symbol closure is the fresh one (crates/typefacts/src/session.rs):
the exact condition for the general path, and the patch of a stable universe. */
module ClientPatches {
  import opened Order
  import opened SortedRows
  import opened Facts
  import opened KeyedEdits
  import opened PackedIndexes
  import opened RetainedSymbols
  import opened SymbolDeltas
  import opened SymbolPatches
  import opened SymbolPrograms
  import opened ClientClosures

  /** The retained symbols are those of a from-scratch closure. */
  ghost predicate FreshViews(program: Program, reached: set<SymbolID>, full: set<SymbolID>, views: seq<Row<SymbolView>>) {
    && Sorted(views)
    && (forall id :: Find(views, id) == if id in reached then Some(ViewOf(Fresh(program, full, id))) else None)
  }

  /** The oracle lists references in canonical path order. */
  ghost predicate ListsOrdered(program: Program) {
    forall id :: PathOrdered(FactOf(program, id).references)
  }

  lemma ViewOfInjective(a: SymbolBody, b: SymbolBody)
    ensures ViewOf(a) == ViewOf(b) <==> a == b
  {
    FlattenRunsOf(a.references);
    FlattenRunsOf(b.references);
  }

  // --- the general path ---

  /** The rows the general path publishes. */
  ghost predicate ClosedViews(program: Program, reached: set<SymbolID>, full: set<SymbolID>, before: seq<Row<SymbolView>>, reply: Reply,
      views: seq<Row<SymbolView>>) {
    && Sorted(views)
    && (forall id :: Find(views, id) == if id in reached then Some(ViewOf(RowFor(program, full, before, reply, id))) else None)
  }

  /** A full-tier symbol left with a list, kept or answered, that is not the current one. */
  ghost predicate StaleList(program: Program, reached: set<SymbolID>, full: set<SymbolID>, before: seq<Row<SymbolView>>, reply: Reply, id: SymbolID) {
    Eligible(program, reached, full, id) && ListFor(before, reply, id) != FactOf(program, id).references
  }

  lemma ClosedRowFresh(program: Program, reached: set<SymbolID>, full: set<SymbolID>, before: seq<Row<SymbolView>>, reply: Reply, id: SymbolID)
    requires id in reached
    ensures RowFor(program, full, before, reply, id) == Fresh(program, full, id) <==> !StaleList(program, reached, full, before, reply, id)
  {
    hide Find, ListFor, FactOf;
  }

  /** The general path publishes a fresh closure exactly when no list is stale. */
  lemma ClosedFreshIff(program: Program, reached: set<SymbolID>, full: set<SymbolID>, before: seq<Row<SymbolView>>, reply: Reply,
      views: seq<Row<SymbolView>>)
    requires ClosedViews(program, reached, full, before, reply, views)
    ensures FreshViews(program, reached, full, views) <==> forall id :: !StaleList(program, reached, full, before, reply, id)
  {
    hide Find, Sorted, RowFor, Fresh, ViewOf, ListFor;
    forall id | id in reached
      ensures Find(views, id) == Some(ViewOf(Fresh(program, full, id))) <==> !StaleList(program, reached, full, before, reply, id)
    {
      ClosedRowFresh(program, reached, full, before, reply, id);
      ViewOfInjective(RowFor(program, full, before, reply, id), Fresh(program, full, id));
    }
    forall id | id !in reached ensures !StaleList(program, reached, full, before, reply, id) {
    }
  }

  /** The generation the table was closed for, and what may have moved since. */
  ghost predicate TableHolds(before: Program, program: Program, reached: set<SymbolID>, full: set<SymbolID>,
      views: seq<Row<SymbolView>>, reply: Reply) {
    && FreshViews(before, reached, full, views) && ListsOrdered(before)
    && (reply.exact ==> forall id :: Eligible(before, reached, full, id) && AliasOf(program, id) == "" && id !in reply.ids ==>
          FactOf(program, id).references == FactOf(before, id).references)
  }

  /** Every full-tier symbol whose list is read is answered with the current one. */
  ghost predicate Answered(program: Program, reached: set<SymbolID>, full: set<SymbolID>, views: seq<Row<SymbolView>>, reply: Reply) {
    forall id :: Eligible(program, reached, full, id) && Queried(views, reply, id) ==> ListOf(reply, id) == FactOf(program, id).references
  }

  /** Answers too come in canonical path order. */
  ghost predicate RepliesOrdered(reply: Reply) {
    forall id :: PathOrdered(ListOf(reply, id))
  }

  /** A symbol the table already holds without a list becomes due one, and the exact delta
  does not name it. */
  ghost predicate NewlyDue(before: Program, program: Program, reached: set<SymbolID>, full: set<SymbolID>,
      nextReached: set<SymbolID>, nextFull: set<SymbolID>, reply: Reply, id: SymbolID) {
    && reply.exact && id !in reply.ids && id in reached
    && !Eligible(before, reached, full, id) && Eligible(program, nextReached, nextFull, id)
  }

  lemma RetainedFresh(before: Program, reached: set<SymbolID>, full: set<SymbolID>, views: seq<Row<SymbolView>>, id: SymbolID)
    requires FreshViews(before, reached, full, views) && id in reached
    ensures Retained(views, id) == Fresh(before, full, id).references
  {
    hide Find, Sorted, Fresh;
    FlattenRunsOf(Fresh(before, full, id).references);
  }

  /** Against a table that was fresh, the general path is fresh exactly when every symbol
  that becomes due a list while the table holds it without one has an empty list, and every
  list that is read is answered whole. */
  lemma GeneralPathFreshIff(before: Program, program: Program, reached: set<SymbolID>, full: set<SymbolID>,
      nextReached: set<SymbolID>, nextFull: set<SymbolID>, priorViews: seq<Row<SymbolView>>, reply: Reply, views: seq<Row<SymbolView>>)
    requires TableHolds(before, program, reached, full, priorViews, reply)
    requires ClosedViews(program, nextReached, nextFull, priorViews, reply, views)
    ensures FreshViews(program, nextReached, nextFull, views) <==>
      (forall id :: NewlyDue(before, program, reached, full, nextReached, nextFull, reply, id) ==> FactOf(program, id).references == [])
      && Answered(program, nextReached, nextFull, priorViews, reply)
  {
    hide Find, Sorted, FactOf, Retained, ClosedViews, ViewOf, ListOf;
    ClosedFreshIff(program, nextReached, nextFull, priorViews, reply, views);
    forall id
      ensures StaleList(program, nextReached, nextFull, priorViews, reply, id) <==>
        (NewlyDue(before, program, reached, full, nextReached, nextFull, reply, id) && FactOf(program, id).references != [])
        || (Eligible(program, nextReached, nextFull, id) && Queried(priorViews, reply, id) && ListOf(reply, id) != FactOf(program, id).references)
    {
      assert Find(priorViews, id).Some? <==> id in reached;
      if id in reached { RetainedFresh(before, reached, full, priorViews, id); }
    }
    hide StaleList, NewlyDue, FreshViews, Queried, Eligible;
  }

  /** What the client could check before trusting the path: under an exact delta, no symbol it holds
  newly enters the reference tier unless the reply names it. */
  predicate NoneNewlyDue(before: Program, program: Program, reached: set<SymbolID>, full: set<SymbolID>,
      nextReached: set<SymbolID>, nextFull: set<SymbolID>, reply: Reply) {
    reply.exact ==> forall id :: id in reached && id !in reply.ids && Eligible(program, nextReached, nextFull, id) ==> Eligible(before, reached, full, id)
  }

  /** Under that guard, and with whole answers, the general path is fresh; without whole answers it never is,
  and without the guard only by the accident that the newly due lists are empty. */
  lemma GuardedPathFresh(before: Program, program: Program, reached: set<SymbolID>, full: set<SymbolID>,
      nextReached: set<SymbolID>, nextFull: set<SymbolID>, priorViews: seq<Row<SymbolView>>, reply: Reply, views: seq<Row<SymbolView>>)
    requires TableHolds(before, program, reached, full, priorViews, reply)
    requires ClosedViews(program, nextReached, nextFull, priorViews, reply, views)
    ensures NoneNewlyDue(before, program, reached, full, nextReached, nextFull, reply) ==>
      (FreshViews(program, nextReached, nextFull, views) <==> Answered(program, nextReached, nextFull, priorViews, reply))
    ensures FreshViews(program, nextReached, nextFull, views) ==> Answered(program, nextReached, nextFull, priorViews, reply)
    ensures !NoneNewlyDue(before, program, reached, full, nextReached, nextFull, reply) && FreshViews(program, nextReached, nextFull, views) ==>
      exists id :: NewlyDue(before, program, reached, full, nextReached, nextFull, reply, id) && FactOf(program, id).references == []
  {
    hide FreshViews, TableHolds, ClosedViews, Eligible, FactOf, Answered;
    GeneralPathFreshIff(before, program, reached, full, nextReached, nextFull, priorViews, reply, views);
    if !NoneNewlyDue(before, program, reached, full, nextReached, nextFull, reply) {
      var id :| id in reached && id !in reply.ids && Eligible(program, nextReached, nextFull, id) && !Eligible(before, reached, full, id);
      assert NewlyDue(before, program, reached, full, nextReached, nextFull, reply, id);
    }
  }

  /** One symbol, first demanded without references, then with them under an exact delta
  that names nothing: its one reference never arrives. */
  lemma NewlyDueListIsLost()
    ensures var id := "symbol:h:a";
      var use := Location("/a.ts", 0, 1);
      var program := Program(map[id := SymbolBody("", [], [use])]);
      var reply := Reply(true, {}, map[id := [use]]);
      var held := [Row(id, ViewOf(SymbolBody("", [], [])))];
      && TableHolds(program, program, {id}, {}, held, reply)
      && LeastClosed(program, {id}, {id}) && Answered(program, {id}, {id}, held, reply)
      && ClosedViews(program, {id}, {id}, held, reply, held)
      && !FreshViews(program, {id}, {id}, held)
  {
    var id := "symbol:h:a";
    var use := Location("/a.ts", 0, 1);
    var program := Program(map[id := SymbolBody("", [], [use])]);
    var reply := Reply(true, {}, map[id := [use]]);
    var held := [Row(id, ViewOf(SymbolBody("", [], [])))];
    assert held[1..] == [];
    assert forall k :: Find(held, k) == if k == id then Some(ViewOf(SymbolBody("", [], []))) else None;
    assert RunsOf([]) == [] && FlattenRuns([]) == [];
    assert [use][..0] == [];
    assert RunsOf([use]) == [Row("/a.ts", [use])];
    assert ViewOf(Fresh(program, {id}, id)) != ViewOf(SymbolBody("", [], []));
    assert Find(held, id) != Some(ViewOf(Fresh(program, {id}, id)));
  }

  /** One symbol absent from the table, demanded with references once its rows are gone from the producer's
  index: it is answered with no list, nothing is newly due, and its one reference never arrives. */
  lemma ReleasedListIsLost()
    ensures var id := "symbol:h:a";
      var use := Location("/a.ts", 0, 1);
      var program := Program(map[id := SymbolBody("", [], [use])]);
      var reply := Reply(true, {}, map[]);
      var next := [Row(id, ViewOf(SymbolBody("", [], [])))];
      && TableHolds(program, program, {}, {}, [], reply)
      && LeastClosed(program, {id}, {id}) && NoneNewlyDue(program, program, {}, {}, {id}, {id}, reply)
      && ClosedViews(program, {id}, {id}, [], reply, next)
      && !FreshViews(program, {id}, {id}, next)
  {
    var id := "symbol:h:a";
    var use := Location("/a.ts", 0, 1);
    var program := Program(map[id := SymbolBody("", [], [use])]);
    var next := [Row(id, ViewOf(SymbolBody("", [], [])))];
    FindEmpty<SymbolView>();
    assert next[1..] == [];
    assert forall k :: Find(next, k) == if k == id then Some(ViewOf(SymbolBody("", [], []))) else None;
    assert [use][..0] == [];
    assert RunsOf([use]) == [Row("/a.ts", [use])];
    assert ViewOf(Fresh(program, {id}, id)) != ViewOf(SymbolBody("", [], []));
    assert Find(next, id) != Some(ViewOf(Fresh(program, {id}, id)));
  }

  // --- the stable patch ---

  /** What holds when neither roots nor reference roots changed: only invalidated facts
  moved, lists moved only where the reply says and only at affected paths, and evidence
  rows carry the current references at those paths. */
  ghost predicate StableTable(before: Program, program: Program, reached: set<SymbolID>, full: set<SymbolID>,
      views: seq<Row<SymbolView>>, invalidated: set<SymbolID>, affected: set<Path>, reply: Reply, evidence: References) {
    && TableHolds(before, program, reached, full, views, reply) && ListsOrdered(program)
    && full <= reached && invalidated <= reached
    && (forall id :: id in reached && id !in invalidated ==> SameFact(program, id, FactOf(before, id)))
    && evidence.Keys <= reply.ids
    && (forall id, path :: id in evidence && Eligible(before, reached, full, id) && AliasOf(program, id) == "" && path in affected ==>
          LocationsAt(evidence[id], path) == LocationsAt(FactOf(program, id).references, path))
    && (forall id, path :: id in evidence && Eligible(before, reached, full, id) && AliasOf(program, id) == "" && path !in affected ==>
          LocationsAt(FactOf(before, id).references, path) == LocationsAt(FactOf(program, id).references, path))
  }

  /** Runs are determined by the references at each path. */
  lemma RunsByPaths(a: seq<Row<seq<Location>>>, b: seq<Row<seq<Location>>>)
    requires RunsValid(a) && RunsValid(b)
    requires forall path :: LocationsAt(FlattenRuns(a), path) == LocationsAt(FlattenRuns(b), path)
    ensures a == b
  {
    hide Less, Find, Sorted, LocationsAt, FlattenRuns;
    forall path ensures Find(a, path) == Find(b, path) {
      RunAtIsFilter(a, path);
      RunAtIsFilter(b, path);
      RunNonEmpty(a, path);
      RunNonEmpty(b, path);
    }
    FindExtensional(a, b);
  }

  lemma RunNonEmpty(runs: seq<Row<seq<Location>>>, path: Path)
    requires RunsValid(runs)
    ensures Find(runs, path).Some? <==> RunAt(runs, path) != []
  {
    hide Less, Find, Sorted;
    if Find(runs, path).Some? {
      var at := FindWitness(runs, path);
      assert RunValid(runs[at]);
    }
  }

  /** Replacing the affected paths' runs by the reported ones makes the list current. */
  lemma PatchedIsCurrent(view: SymbolView, affected: seq<Path>, reported: seq<Location>, current: seq<Location>, prior: seq<Location>)
    requires PathOrdered(prior) && PathOrdered(current) && view.runs == RunsOf(prior)
    requires forall path :: path in affected ==> LocationsAt(reported, path) == LocationsAt(current, path)
    requires forall path :: path !in affected ==> LocationsAt(prior, path) == LocationsAt(current, path)
    ensures PatchedView(Some(view), affected, reported)
         == Some(SymbolView(view.aliasTarget, view.declarations, RunsOf(current)))
  {
    hide *;
    RunsOfValid(prior);
    RunsOfValid(current);
    FlattenRunsOf(prior);
    FlattenRunsOf(current);
    PatchedSome(view, affected, reported);
    var patched := PatchedView(Some(view), affected, reported).value;
    forall path ensures LocationsAt(FlattenRuns(patched.runs), path) == LocationsAt(FlattenRuns(RunsOf(current)), path) {
      PatchedReferences(view, affected, reported, path);
    }
    PatchedReferences(view, affected, reported, "");
    RunsByPaths(patched.runs, RunsOf(current));
  }

  lemma FrontDistinct(facts: seq<Row<SymbolBody>>)
    requires DistinctKeys(facts) && facts != []
    ensures DistinctKeys(facts[..|facts| - 1]) && !HasKey(facts[..|facts| - 1], facts[|facts| - 1].key)
  {
  }

  lemma {:induction false} FoldDistinct(value: Option<SymbolView>, facts: seq<Row<SymbolBody>>, id: SymbolID)
    requires DistinctKeys(facts)
    ensures FoldKey(PutStep, value, FactViews(facts), id)
         == if Find(facts, id).Some? then Some(ViewOf(Find(facts, id).value)) else value
  {
    hide ViewOf, Find, HasKey;
    if facts == [] {
      FindEmpty<SymbolBody>();
      assert FactViews(facts) == [];
    } else {
      var front, last := facts[..|facts| - 1], facts[|facts| - 1];
      FrontDistinct(facts);
      FoldDistinct(value, front, id);
      assert facts == front + [last];
      assert FactViews(facts)[..|facts| - 1] == FactViews(front);
      hide DistinctKeys;
      FindConcat(front, [last], id);
      FindSingle(last, id);
      FindAbsent(front, last.key);
    }
  }

  lemma FindSingle(row: Row<SymbolBody>, id: SymbolID)
    ensures Find([row], id) == if row.key == id then Some(row.value) else None
  {
    assert [row][1..] == [];
  }

  /** `patch_symbols`, read one symbol at a time. */
  lemma PatchedFind(views: seq<Row<SymbolView>>, facts: seq<Row<SymbolBody>>, id: SymbolID)
    requires Sorted(views) && DistinctKeys(facts)
    ensures Find(ApplyAll(PutStep, views, FactViews(facts)), id)
         == if Find(facts, id).Some? then Some(ViewOf(Find(facts, id).value)) else Find(views, id)
  {
    hide *;
    ApplyAllMeaning(PutStep, views, FactViews(facts));
    FoldDistinct(Find(views, id), facts, id);
  }
}
