/** The client's symbol closure (crates/typefacts/src/session.rs): batched oracle queries
to a fixed point, reference lists taken from the retained table where an exact delta does
not name them, and the patch of a stable universe. */
module ClientClosures {
  import opened Order
  import opened SortedRows
  import opened Facts
  import opened KeyedEdits
  import opened PackedIndexes
  import opened RetainedSymbols
  import opened SymbolDeltas
  import opened SymbolPatches
  import opened SymbolPrograms

  type FactMap = map<SymbolID, SymbolBody>

  /** What the oracle answers about references: whether its delta is exact, the symbols it names, and the
  list it would return for each symbol asked. */
  datatype Reply = Reply(exact: bool, ids: set<SymbolID>, lists: References)

  function ListOf(reply: Reply, id: SymbolID): seq<Location> {
    if id in reply.lists then reply.lists[id] else []
  }

  // --- the batched worklist ---

  /** Facts answered so far, and IDs seen but not answered. */
  ghost predicate Reaching(program: Program, seeds: set<SymbolID>, facts: FactMap, seen: set<SymbolID>) {
    && seeds - {""} <= seen && "" !in seen && facts.Keys <= seen <= seeds + Targets(program)
    && Within(program, seeds - {""}, seen)
    && (forall id :: id in facts ==> facts[id] == Bare(program, id))
    && (forall id :: id in facts && AliasOf(program, id) != "" ==> AliasOf(program, id) in seen)
  }

  function Targets(program: Program): set<SymbolID> {
    set id | id in program.facts :: program.facts[id].aliasTarget
  }

  lemma ReachStart(program: Program, seeds: set<SymbolID>)
    ensures Reaching(program, seeds, map[], seeds - {""})
  {
  }

  lemma ReachStep(program: Program, seeds: set<SymbolID>, facts: FactMap, seen: set<SymbolID>, id: SymbolID)
    requires Reaching(program, seeds, facts, seen) && id in seen
    ensures var alias := AliasOf(program, id);
      Reaching(program, seeds, facts[id := Bare(program, id)], if alias == "" then seen else seen + {alias})
  {
    hide Within, FactOf;
    var alias := AliasOf(program, id);
    if alias != "" {
      WithinStep(program, seeds - {""}, seen, id);
      assert alias in Targets(program) by { TargetOf(program, id); }
    }
  }

  lemma TargetOf(program: Program, id: SymbolID)
    ensures AliasOf(program, id) != "" ==> AliasOf(program, id) in Targets(program)
  {
  }

  lemma ReachEnd(program: Program, seeds: set<SymbolID>, facts: FactMap, seen: set<SymbolID>)
    requires Reaching(program, seeds, facts, seen) && facts.Keys == seen
    ensures LeastClosed(program, seeds - {""}, seen)
  {
    hide Within, AliasOf, Bare;
  }

  lemma ReachBound(program: Program, seeds: set<SymbolID>, facts: FactMap, seen: set<SymbolID>)
    requires Reaching(program, seeds, facts, seen)
    ensures facts.Keys <= seen <= seeds + Targets(program)
  {
  }

  /** One round: the whole batch is answered; an alias target not seen before joins the next. */
  method AnswerBatch(program: Program, ghost seeds: set<SymbolID>, answered: FactMap, known: set<SymbolID>, sent: set<SymbolID>)
    returns (facts: FactMap, seen: set<SymbolID>, pending: set<SymbolID>)
    requires Reaching(program, seeds, answered, known)
    requires forall id :: id in known <==> id in answered || id in sent
    requires forall id :: id in sent ==> id !in answered
    ensures Reaching(program, seeds, facts, seen)
    ensures forall id :: id in seen <==> id in facts || id in pending
    ensures forall id :: id in pending ==> id !in facts
    ensures forall id :: id in answered || id in sent ==> id in facts
  {
    hide *;
    facts, seen, pending := answered, known, {};
    var batch := sent;
    while batch != {}
      invariant Reaching(program, seeds, facts, seen)
      invariant forall id :: id in seen <==> id in facts || id in batch || id in pending
      invariant forall id :: id in batch ==> id !in facts && id !in pending
      invariant forall id :: id in pending ==> id !in facts
      invariant forall id :: id in answered ==> id in facts
      invariant forall id :: id in sent ==> id in facts || id in batch
      decreases |batch|
    {
      var id :| id in batch;
      batch := batch - {id};
      ReachStep(program, seeds, facts, seen, id);
      facts := facts[id := Bare(program, id)];
      var alias := AliasOf(program, id);
      if alias != "" {
        if alias !in seen { pending := pending + {alias}; }
        seen := seen + {alias};
      }
    }
  }

  /** The rounds, until nothing is pending. */
  method Reach(program: Program, seeds: set<SymbolID>) returns (facts: FactMap)
    ensures LeastClosed(program, seeds - {""}, facts.Keys)
    ensures forall id :: id in facts ==> facts[id] == Bare(program, id)
  {
    hide *;
    facts := map[];
    var seen := seeds - {""};
    var pending := seen;
    ghost var universe := seeds + Targets(program);
    ReachStart(program, seeds);
    while pending != {}
      invariant Reaching(program, seeds, facts, seen)
      invariant forall id :: id in seen <==> id in facts || id in pending
      invariant forall id :: id in pending ==> id !in facts
      decreases |universe - facts.Keys|
    {
      var next, grown, rest := AnswerBatch(program, seeds, facts, seen, pending);
      ReachBound(program, seeds, next, grown);
      Progress(universe, facts.Keys, next.Keys, pending);
      facts, seen, pending := next, grown, rest;
    }
    assert facts.Keys == seen;
    ReachEnd(program, seeds, facts, seen);
    ReachFacts(program, seeds, facts, seen);
  }

  lemma BareAlias(program: Program, id: SymbolID)
    ensures Bare(program, id).aliasTarget == AliasOf(program, id)
  {
  }

  lemma ReachFacts(program: Program, seeds: set<SymbolID>, facts: FactMap, seen: set<SymbolID>)
    requires Reaching(program, seeds, facts, seen)
    ensures forall id :: id in facts ==> facts[id] == Bare(program, id)
  {
    hide Bare;
  }

  lemma Progress(universe: set<SymbolID>, before: set<SymbolID>, after: set<SymbolID>, sent: set<SymbolID>)
    requires before <= after <= universe && sent != {} && sent <= after && sent !! before
    ensures |universe - after| < |universe - before|
  {
    var id :| id in sent;
    assert universe - after <= (universe - before) - {id};
    SubsetCount(universe - after, (universe - before) - {id});
  }

  // --- the full tier ---

  ghost predicate Spreading(program: Program, roots: set<SymbolID>, full: set<SymbolID>, queue: seq<SymbolID>, n: nat) {
    && n <= |queue| && full == SetOf(queue) && roots <= full && "" !in full
    && Within(program, roots, full)
    && (forall k :: 0 <= k < n && AliasOf(program, queue[k]) != "" ==> AliasOf(program, queue[k]) in full)
  }

  /** The roots, each queued once. */
  method QueueRoots(roots: seq<SymbolID>) returns (full: set<SymbolID>, queue: seq<SymbolID>)
    ensures full == SetOf(queue) == SetOf(roots) - {""} && |queue| == |full|
  {
    hide *;
    full, queue := {}, [];
    NoRoots(roots);
    for i := 0 to |roots|
      invariant full == SetOf(queue) && full == SetOf(roots[..i]) - {""} && |queue| == |full|
    {
      RootStep(roots, i, queue);
      var id := roots[i];
      AddRoot(full, id);
      if id != "" && id !in full {
        full := full + {id};
        queue := queue + [id];
      }
    }
    assert roots[..|roots|] == roots;
  }

  lemma AddRoot(full: set<SymbolID>, id: SymbolID)
    ensures id in full ==> full + {id} == full
    ensures id !in full ==> |full + {id}| == |full| + 1
  {
    if id in full { assert full + {id} == full; }
  }

  /** Full tier spreads along the alias edges of the answered facts. */
  method FullTier(ghost program: Program, facts: FactMap, roots: seq<SymbolID>) returns (full: set<SymbolID>)
    requires AliasClosed(program, facts.Keys) && forall id :: id in facts ==> facts[id] == Bare(program, id)
    requires forall id :: id in roots && id != "" ==> id in facts
    ensures LeastClosed(program, SetOf(roots) - {""}, full) && full <= facts.Keys
  {
    hide *;
    var queue;
    full, queue := QueueRoots(roots);
    ghost var start := SetOf(roots) - {""};
    RootsReached(roots, facts.Keys);
    SpreadStart(program, start, full, queue);
    var index := 0;
    while index < |queue|
      invariant Spreading(program, start, full, queue, index) && full <= facts.Keys && |queue| == |full| && index <= |queue|
      decreases |facts.Keys| - index
    {
      SubsetCount(full, facts.Keys);
      SpreadStep(program, start, full, queue, index, facts.Keys);
      var id := queue[index];
      BareAlias(program, id);
      var alias := facts[id].aliasTarget;
      AddRoot(full, alias);
      if alias != "" && alias !in full {
        full := full + {alias};
        queue := queue + [alias];
      }
      index := index + 1;
    }
    SpreadEnd(program, start, full, queue);
  }

  lemma RootsReached(roots: seq<SymbolID>, reached: set<SymbolID>)
    requires forall id :: id in roots && id != "" ==> id in reached
    ensures SetOf(roots) - {""} <= reached
  {
  }

  lemma NoRoots(roots: seq<SymbolID>)
    ensures SetOf(roots[..0]) == {} && SetOf<SymbolID>([]) == {}
  {
  }

  lemma RootStep(roots: seq<SymbolID>, i: nat, queue: seq<SymbolID>)
    requires i < |roots|
    ensures SetOf(roots[..i + 1]) == SetOf(roots[..i]) + {roots[i]}
    ensures SetOf(queue + [roots[i]]) == SetOf(queue) + {roots[i]}
    ensures roots[i] in roots
  {
    assert roots[..i + 1] == roots[..i] + [roots[i]];
  }

  lemma SpreadStart(program: Program, start: set<SymbolID>, full: set<SymbolID>, queue: seq<SymbolID>)
    requires full == SetOf(queue) && full == start && "" !in start
    ensures Spreading(program, start, full, queue, 0)
  {
  }

  lemma SpreadStep(program: Program, start: set<SymbolID>, full: set<SymbolID>, queue: seq<SymbolID>, n: nat, reached: set<SymbolID>)
    requires Spreading(program, start, full, queue, n) && n < |queue| && full <= reached && AliasClosed(program, reached)
    ensures queue[n] in full
    ensures var alias := AliasOf(program, queue[n]);
      && (alias == "" || alias in full ==> Spreading(program, start, full, queue, n + 1))
      && (alias != "" && alias !in full ==> alias in reached && Spreading(program, start, full + {alias}, queue + [alias], n + 1))
  {
    hide Within, AliasOf;
    var alias := AliasOf(program, queue[n]);
    if alias != "" && alias !in full { WithinStep(program, start, full, queue[n]); }
  }

  lemma SpreadEnd(program: Program, start: set<SymbolID>, full: set<SymbolID>, queue: seq<SymbolID>)
    requires Spreading(program, start, full, queue, |queue|)
    ensures LeastClosed(program, start, full)
  {
    hide Within, AliasOf;
    forall id | id in full && AliasOf(program, id) != "" ensures AliasOf(program, id) in full {
      var k :| 0 <= k < |queue| && queue[k] == id;
    }
  }

  // --- reference lists ---

  function Retained(views: seq<Row<SymbolView>>, id: SymbolID): seq<Location> {
    match Find(views, id)
    case None => []
    case Some(view) => FlattenRuns(view.runs)
  }

  /** The list a full-tier symbol ends with: the retained one wherever the table holds the
  symbol and the exact delta does not name it. */
  function ListFor(views: seq<Row<SymbolView>>, reply: Reply, id: SymbolID): seq<Location> {
    if reply.exact && id !in reply.ids && Find(views, id).Some? then Retained(views, id) else ListOf(reply, id)
  }

  function RowFor(program: Program, full: set<SymbolID>, views: seq<Row<SymbolView>>, reply: Reply, id: SymbolID): SymbolBody {
    var fact := FactOf(program, id);
    SymbolBody(fact.aliasTarget, fact.declarations,
      if fact.aliasTarget == "" && id in full then ListFor(views, reply, id) else [])
  }

  ghost predicate RowsFor(program: Program, full: set<SymbolID>, views: seq<Row<SymbolView>>, reply: Reply, facts: FactMap) {
    forall id :: id in facts ==> facts[id] == RowFor(program, full, views, reply, id)
  }

  /** `full_ids`, the filtered reference query, and the retained lists over it. */
  method CloseLists(program: Program, facts: FactMap, full: set<SymbolID>, symbols: PackedIndex<StoredSymbol>, reply: Reply)
    returns (closed: FactMap, fullIDs: set<SymbolID>, queried: set<SymbolID>)
    requires Valid(symbols) && forall id :: id in facts ==> facts[id] == Bare(program, id)
    ensures closed.Keys == facts.Keys && RowsFor(program, full, Viewed(Rows(symbols)), reply, closed)
    ensures forall id :: id in fullIDs <==> Eligible(program, facts.Keys, full, id)
    ensures forall id :: id in queried <==> id in fullIDs && Queried(Viewed(Rows(symbols)), reply, id)
  {
    hide *;
    ghost var views := Viewed(Rows(symbols));
    fullIDs := FilterFull(program, facts, full);
    queried := QueryIDs(fullIDs, symbols, reply);
    var answered := AnswerLists(facts, queried, reply, fullIDs);
    closed := KeepRetained(answered, fullIDs, symbols, reply);
    forall id | id in facts ensures closed[id] == RowFor(program, full, views, reply, id) {
      RowIs(program, facts, full, views, reply, id);
    }
    RowsAre(program, full, views, reply, closed);
  }

  /** The full-tier symbols whose list is read: every one without an exact delta; with one,
  those it names and those the table does not hold. */
  method QueryIDs(fullIDs: set<SymbolID>, symbols: PackedIndex<StoredSymbol>, reply: Reply) returns (queried: set<SymbolID>)
    requires Valid(symbols)
    ensures forall id :: id in queried <==> id in fullIDs && Queried(Viewed(Rows(symbols)), reply, id)
  {
    hide *;
    queried := {};
    var remaining := fullIDs;
    while remaining != {}
      invariant remaining <= fullIDs
      invariant forall id :: id in queried <==> id in fullIDs && id !in remaining && Queried(Viewed(Rows(symbols)), reply, id)
      decreases |remaining|
    {
      var id :| id in remaining;
      remaining := remaining - {id};
      var retained := Get(symbols, id);
      QueriedIs(symbols, reply, id);
      if !reply.exact || id in reply.ids || retained.None? { queried := queried + {id}; }
    }
  }

  predicate Queried(views: seq<Row<SymbolView>>, reply: Reply, id: SymbolID) {
    !reply.exact || id in reply.ids || Find(views, id).None?
  }

  lemma QueriedIs(symbols: PackedIndex<StoredSymbol>, reply: Reply, id: SymbolID)
    ensures Queried(Viewed(Rows(symbols)), reply, id) <==> !reply.exact || id in reply.ids || Find(Rows(symbols), id).None?
  {
    hide Rows, Find, MapRows;
    FindViewed(symbols, id);
  }

  method AnswerLists(facts: FactMap, queried: set<SymbolID>, reply: Reply, ghost fullIDs: set<SymbolID>) returns (answered: FactMap)
    requires queried <= fullIDs && forall id :: id in fullIDs ==> id in facts
    ensures forall id :: id in answered <==> id in facts
    ensures forall id :: id in facts && id in queried ==> answered[id] == facts[id].(references := ListOf(reply, id))
    ensures forall id :: id in facts && id !in queried ==> answered[id] == facts[id]
  {
    hide *;
    answered := facts;
    var remaining := queried;
    while remaining != {}
      invariant remaining <= queried && forall id :: id in answered <==> id in facts
      invariant forall id :: id in queried && id !in remaining ==>
        answered[id] == facts[id].(references := ListOf(reply, id))
      invariant forall id :: id in facts && (id !in queried || id in remaining) ==> answered[id] == facts[id]
      decreases |remaining|
    {
      var id :| id in remaining;
      remaining := remaining - {id};
      answered := answered[id := answered[id].(references := ListOf(reply, id))];
    }
  }

  predicate KeptFor(views: seq<Row<SymbolView>>, reply: Reply, id: SymbolID) {
    reply.exact && id !in reply.ids && Find(views, id).Some?
  }

  method KeepRetained(answered: FactMap, fullIDs: set<SymbolID>, symbols: PackedIndex<StoredSymbol>, reply: Reply) returns (closed: FactMap)
    requires Valid(symbols) && forall id :: id in fullIDs ==> id in answered
    ensures forall id :: id in closed <==> id in answered
    ensures forall id :: id in fullIDs && KeptFor(Viewed(Rows(symbols)), reply, id) ==>
      closed[id] == answered[id].(references := Retained(Viewed(Rows(symbols)), id))
    ensures forall id :: id in answered && !(id in fullIDs && KeptFor(Viewed(Rows(symbols)), reply, id)) ==> closed[id] == answered[id]
  {
    hide *;
    closed := answered;
    ghost var views := Viewed(Rows(symbols));
    if !reply.exact {
      KeptNever(views, reply);
      return;
    }
    var remaining := fullIDs;
    while remaining != {}
      invariant remaining <= fullIDs && forall id :: id in closed <==> id in answered
      invariant forall id :: id in fullIDs && id !in remaining && KeptFor(views, reply, id) ==>
        closed[id] == answered[id].(references := Retained(views, id))
      invariant forall id :: id in answered && !(id in fullIDs && id !in remaining && KeptFor(views, reply, id)) ==>
        closed[id] == answered[id]
      decreases |remaining|
    {
      var id :| id in remaining;
      remaining := remaining - {id};
      var retained := Get(symbols, id);
      KeptIs(symbols, reply, id);
      if id !in reply.ids && retained.Some? {
        RetainedIs(symbols, id, retained.value);
        closed := closed[id := closed[id].(references := FlattenRuns(Rows(retained.value.references)))];
      }
    }
  }

  lemma KeptNever(views: seq<Row<SymbolView>>, reply: Reply)
    requires !reply.exact
    ensures forall id :: !KeptFor(views, reply, id)
  {
  }

  lemma KeptIs(symbols: PackedIndex<StoredSymbol>, reply: Reply, id: SymbolID)
    ensures KeptFor(Viewed(Rows(symbols)), reply, id) <==> reply.exact && id !in reply.ids && Find(Rows(symbols), id).Some?
  {
    hide Rows, Find, MapRows;
    FindViewed(symbols, id);
  }

  method FilterFull(program: Program, facts: FactMap, full: set<SymbolID>) returns (fullIDs: set<SymbolID>)
    requires forall id :: id in facts ==> facts[id] == Bare(program, id)
    ensures forall id :: id in fullIDs <==> Eligible(program, facts.Keys, full, id)
    ensures forall id :: id in fullIDs ==> id in facts
  {
    fullIDs := set id | id in full && id in facts && facts[id].aliasTarget == "";
  }

  lemma FindViewed(symbols: PackedIndex<StoredSymbol>, id: SymbolID)
    ensures Find(Viewed(Rows(symbols)), id) == MapOption(View, Find(Rows(symbols), id))
    ensures MapOption(View, Find(Rows(symbols), id)).Some? == Find(Rows(symbols), id).Some?
  {
    hide Rows, Find, MapRows;
    MapFind(View, Rows(symbols), id);
  }

  lemma RetainedIs(symbols: PackedIndex<StoredSymbol>, id: SymbolID, stored: StoredSymbol)
    requires Find(Rows(symbols), id) == Some(stored)
    ensures Retained(Viewed(Rows(symbols)), id) == FlattenRuns(Rows(stored.references))
  {
    hide Rows, Find, MapRows, FlattenRuns;
    FindViewed(symbols, id);
  }

  lemma RowIs(program: Program, facts: FactMap, full: set<SymbolID>, views: seq<Row<SymbolView>>, reply: Reply, id: SymbolID)
    requires id in facts && facts[id] == Bare(program, id)
    ensures Eligible(program, facts.Keys, full, id) ==>
      RowFor(program, full, views, reply, id) == facts[id].(references := ListFor(views, reply, id))
    ensures !Eligible(program, facts.Keys, full, id) ==> RowFor(program, full, views, reply, id) == facts[id]
    ensures KeptFor(views, reply, id) ==> ListFor(views, reply, id) == Retained(views, id)
    ensures !KeptFor(views, reply, id) ==> ListFor(views, reply, id) == ListOf(reply, id)
    ensures KeptFor(views, reply, id) <==> !Queried(views, reply, id)
  {
    hide FactOf, Find, Retained;
  }

  lemma RowsAre(program: Program, full: set<SymbolID>, views: seq<Row<SymbolView>>, reply: Reply, facts: FactMap)
    requires forall id :: id in facts ==> facts[id] == RowFor(program, full, views, reply, id)
    ensures RowsFor(program, full, views, reply, facts)
  {
  }
}
