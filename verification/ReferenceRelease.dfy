/** Releasing the reference index's unused rows (internal/typefacts/tsgo/references.go:373-383), and when
what is left is still complete. */
module ReferenceReleases {
  import opened Order
  import opened SortedRows
  import opened Facts
  import opened ReferenceRows
  import opened ReferenceStates

  function Restricted(refs: Refs, used: set<SymbolID>): Refs {
    map id | id in refs && id in used :: refs[id]
  }

  /** What is left of the rows once only used symbols stay. */
  function ReleasedHeldOf(held: map<Path, Refs>, used: set<SymbolID>): map<Path, Refs> {
    map path | path in held :: Restricted(held[path], used)
  }

  lemma {:induction false} GatherNothing(columns: seq<seq<Span>>)
    requires forall k :: 0 <= k < |columns| ==> columns[k] == []
    ensures Gather(columns) == []
  {
    if columns != [] { GatherNothing(columns[..|columns| - 1]); }
  }

  lemma Released(s: IndexState, used: set<SymbolID>, next: IndexState)
    requires Formed(s) && s.merged.Some?
    requires next == s.(merged := Some(map id | id in s.merged.value && id in used :: s.merged.value[id]),
      held := ReleasedHeldOf(s.held, used))
    ensures Formed(next)
  {
    hide Mentions, StrictlyOrdered, DeltaFormed, HeldStrict, HeldWithin, HeldWhole, ScansFormed, Listed;
    SameDelta(s, next);
    ReleasedHeld(s, used, next.held);
    ReleasedRows(s, used, next.merged.value, next.held);
  }

  lemma ReleasedHeld(s: IndexState, used: set<SymbolID>, held: map<Path, Refs>)
    requires HeldStrict(s.held) && HeldWithin(s.held, s.files)
    requires held == ReleasedHeldOf(s.held, used)
    ensures HeldStrict(held) && HeldWithin(held, s.files)
  {
    hide StrictSpans;
  }

  lemma ReleasedRows(s: IndexState, used: set<SymbolID>, rows: Merged, held: map<Path, Refs>)
    requires s.merged.Some? && Listed(s.merged.value, s.paths, s.held)
    requires rows == map id | id in s.merged.value && id in used :: s.merged.value[id]
    requires held == ReleasedHeldOf(s.held, used)
    ensures Listed(rows, s.paths, held)
  {
    hide Gather;
    forall id ensures RowsFor(rows, id) == Gather(Columns(s.paths, held, id)) {
      if id in used {
        assert Columns(s.paths, held, id) == Columns(s.paths, s.held, id);
      } else {
        GatherNothing(Columns(s.paths, held, id));
      }
    }
  }

  lemma SameDelta(s: IndexState, next: IndexState)
    requires DeltaFormed(s) && s.merged.Some? && next.merged.Some?
    requires next == s.(merged := next.merged, held := next.held)
    ensures DeltaFormed(next)
  {
    hide Mentions;
  }

  /** After a release one symbol's rows are complete exactly if they were and the symbol was used, or
  no file mentions it. */
  lemma ReleasedIsFreshIff(s: IndexState, used: set<SymbolID>, next: IndexState, id: SymbolID)
    requires Formed(s) && Settled(s)
    requires next == s.(merged := Some(map id | id in s.merged.value && id in used :: s.merged.value[id]), held := ReleasedHeldOf(s.held, used))
    ensures Formed(next)
    ensures RowsFor(next.merged.value, id) == FreshRows(next.paths, next.truth, id)
      <==> (id in used && RowsFor(s.merged.value, id) == FreshRows(s.paths, s.truth, id)) || forall path :: path in s.files ==> id !in s.files[path].refs
  {
    Released(s, used, next);
    RowsFreshIff(s, id);
    RowsFreshIff(next, id);
    ListedAt(s, id);
    SettledMentions(s, id);
    HeldMentions(s, id);
    hide Formed, FreshRows, RowsFor, Listed, HeldAll;
    ReleasedAll(s.held, s.truth, used, id);
  }

  /** From a complete index: exactly the used symbols, and those nothing mentions, stay complete. */
  lemma ReleasedWholeIff(s: IndexState, used: set<SymbolID>, next: IndexState, id: SymbolID)
    requires Formed(s) && Settled(s) && Whole(s)
    requires next == s.(merged := Some(map id | id in s.merged.value && id in used :: s.merged.value[id]), held := ReleasedHeldOf(s.held, used))
    ensures RowsFor(next.merged.value, id) == FreshRows(next.paths, next.truth, id)
      <==> id in used || forall path :: path in s.files ==> id !in s.files[path].refs
  {
    WholeIsFresh(s, id);
    ReleasedIsFreshIff(s, used, next, id);
    hide Formed, FreshRows, RowsFor, Whole;
  }

  lemma SettledMentions(s: IndexState, id: SymbolID)
    requires Formed(s) && Settled(s)
    ensures (forall path :: path in s.files ==> id !in s.files[path].refs) <==> forall path :: path in s.truth ==> id !in s.truth[path].refs
  {
    hide DeltaFormed, RowsFormed;
    forall path ensures path in s.files <==> path in s.truth {
    }
    forall path | path in s.truth ensures id in s.files[path].refs <==> id in s.truth[path].refs {
    }
  }

  lemma ReleasedAll(held: map<Path, Refs>, truth: Scans, used: set<SymbolID>, id: SymbolID)
    requires ScansFormed(truth) && forall path :: path in truth ==> SpansAt(truth[path].refs, id) == [] ==> HeldAt(held, path, id) == []
    ensures HeldAll(ReleasedHeldOf(held, used), truth, id) <==> (id in used && HeldAll(held, truth, id)) || forall path :: path in truth ==> id !in truth[path].refs
  {
    var next := ReleasedHeldOf(held, used);
    forall path ensures HeldAt(next, path, id) == if id in used then HeldAt(held, path, id) else [] {
    }
    forall path | path in truth ensures id in truth[path].refs <==> SpansAt(truth[path].refs, id) != [] { Nonempty(truth, path, id); }
    hide HeldAt, SpansAt, ScansFormed, ReleasedHeldOf;
  }

  /** No path holds spans of a symbol its file does not mention. */
  lemma HeldMentions(s: IndexState, id: SymbolID)
    requires Formed(s) && s.merged.Some?
    ensures forall path :: path in s.truth ==> SpansAt(s.truth[path].refs, id) == [] ==> HeldAt(s.held, path, id) == []
  {
    hide DeltaFormed, Listed, StrictlyOrdered, HeldStrict;
    forall path | path in s.truth && SpansAt(s.truth[path].refs, id) == [] ensures HeldAt(s.held, path, id) == [] {
      Nonempty(s.truth, path, id);
      hide ScansFormed;
    }
  }
}
