/** What a symbol closure must compute.

A `Program` is one generation's answers about symbols. The reached universe is the least
set that holds the seeds and is closed under alias edges, and the full tier is the least
such set over the reference seeds. */
module SymbolPrograms {
  import opened Order
  import opened SortedRows
  import opened Facts

  /** The backend's answers; an ID without an entry resolves to nothing. */
  datatype Program = Program(facts: map<SymbolID, SymbolBody>)

  function FactOf(program: Program, id: SymbolID): SymbolBody {
    if id in program.facts then program.facts[id] else SymbolBody("", [], [])
  }

  function AliasOf(program: Program, id: SymbolID): SymbolID {
    FactOf(program, id).aliasTarget
  }

  ghost predicate AliasClosed(program: Program, s: set<SymbolID>) {
    "" !in s && forall id :: id in s && AliasOf(program, id) != "" ==> AliasOf(program, id) in s
  }

  /** Contained in every closed set over the seeds. */
  ghost predicate Within(program: Program, seeds: set<SymbolID>, s: set<SymbolID>) {
    forall t: set<SymbolID> :: AliasClosed(program, t) && seeds <= t ==> s <= t
  }

  ghost predicate LeastClosed(program: Program, seeds: set<SymbolID>, s: set<SymbolID>) {
    AliasClosed(program, s) && seeds <= s && Within(program, seeds, s)
  }

  lemma WithinStep(program: Program, seeds: set<SymbolID>, s: set<SymbolID>, id: SymbolID)
    requires Within(program, seeds, s) && id in s && AliasOf(program, id) != ""
    ensures Within(program, seeds, s + {AliasOf(program, id)})
  {
    hide AliasOf;
    forall t: set<SymbolID> | AliasClosed(program, t) && seeds <= t ensures s + {AliasOf(program, id)} <= t {
      assert s <= t;
    }
  }

  /** When every reached alias edge is unchanged, so is the closure. */
  lemma StableEdges(before: Program, after: Program, seeds: set<SymbolID>, reached: set<SymbolID>)
    requires LeastClosed(before, seeds, reached)
    requires forall id :: id in reached ==> AliasOf(after, id) == AliasOf(before, id)
    ensures LeastClosed(after, seeds, reached)
  {
    hide AliasOf;
    forall t: set<SymbolID> | AliasClosed(after, t) && seeds <= t ensures reached <= t {
      assert AliasClosed(before, t * reached);
    }
  }

  // --- the rows a closure publishes ---

  /** A full-tier symbol that is no alias carries its reference list; every other reached
  symbol carries none. */
  function Fresh(program: Program, full: set<SymbolID>, id: SymbolID): SymbolBody {
    var fact := FactOf(program, id);
    SymbolBody(fact.aliasTarget, fact.declarations, if fact.aliasTarget == "" && id in full then fact.references else [])
  }

  /** A fact before its references are known. */
  function Bare(program: Program, id: SymbolID): SymbolBody {
    SymbolBody(AliasOf(program, id), FactOf(program, id).declarations, [])
  }

  ghost predicate Resolved(program: Program, queue: seq<SymbolID>, facts: seq<Row<SymbolBody>>, n: nat) {
    n <= |facts| <= |queue| && forall k :: 0 <= k < n ==> facts[k] == Row(queue[k], Bare(program, queue[k]))
  }

  ghost predicate FreshRows(program: Program, reached: set<SymbolID>, full: set<SymbolID>, rows: seq<Row<SymbolBody>>) {
    && Sorted(rows)
    && (forall id :: Find(rows, id) == if id in reached then Some(Fresh(program, full, id)) else None)
  }

  type References = map<SymbolID, seq<Location>>

  predicate Eligible(program: Program, reached: set<SymbolID>, full: set<SymbolID>, id: SymbolID) {
    id in reached && id in full && AliasOf(program, id) == ""
  }

  ghost predicate FreshReferences(program: Program, reached: set<SymbolID>, full: set<SymbolID>, references: References) {
    && (forall id :: id in references <==> Eligible(program, reached, full, id))
    && (forall id :: id in references ==> references[id] == FactOf(program, id).references)
  }

  /** The published rows are determined: two closures of one program agree. */
  lemma FreshRowsUnique(program: Program, reached: set<SymbolID>, full: set<SymbolID>, a: seq<Row<SymbolBody>>, b: seq<Row<SymbolBody>>)
    requires FreshRows(program, reached, full, a) && FreshRows(program, reached, full, b)
    ensures a == b
  {
    hide Sorted, Find, Fresh;
    FindExtensional(a, b);
  }

  // --- what may be assumed of an incremental generation ---

  /** A reported delta of reference lists. */
  datatype Delta = Delta(exact: bool, ids: set<SymbolID>)

  /** An exact delta names every retained list that moved. */
  ghost predicate DeltaCovers(program: Program, references: References, delta: Delta) {
    delta.exact ==> forall id :: id in references && id !in delta.ids ==> references[id] == FactOf(program, id).references
  }

  /** A retained fact may be reused: its identities outlive the generation that minted
  them and it has declarations to be invalidated by. */
  predicate Reusable(id: SymbolID, fact: SymbolBody) {
    DurableSymbolID(id) && DurableSymbolID(fact.aliasTarget) && fact.declarations != []
  }

  ghost predicate SameFact(program: Program, id: SymbolID, fact: SymbolBody) {
    AliasOf(program, id) == fact.aliasTarget && FactOf(program, id).declarations == fact.declarations
  }

  /** Only invalidated symbols' alias and declaration facts moved. */
  ghost predicate RetainedHold(program: Program, rows: seq<Row<SymbolBody>>, invalidated: set<SymbolID>) {
    forall id :: Find(rows, id).Some? && id !in invalidated && Reusable(id, Find(rows, id).value)
      ==> SameFact(program, id, Find(rows, id).value)
  }
}
