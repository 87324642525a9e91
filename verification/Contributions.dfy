/** One file's share of a demand closure (internal/typefacts/retained_contributions.go).

A demand-run result is index-aligned with the run's demands; demands of one location
are adjacent, so a contribution keeps one merged row per run of equal locations. The
producer merges in place, inside the array the result arrived in. */
module Contributions {
  import opened SortedRows
  import opened Order
  import opened Facts

  datatype RunResult = RunResult(entities: seq<EntityFact>, structural: seq<SymbolID>, dependencies: seq<Path>, durable: bool)

  /** `demands` stands for the demand hash, which only ever compares runs. */
  datatype Contribution = Contribution(
    demands: seq<EntityDemand>,
    entities: seq<EntityFact>,
    fullTier: seq<nat>,
    structural: seq<SymbolID>,
    dependencies: seq<Path>,
    descriptorSymbols: seq<SymbolID>,
    durable: bool)

  datatype Result<+T> = Ok(value: T) | Err(message: string)

  /** Fields of `entity` that are present override those of `target`. */
  function MergeInto(target: EntityFact, entity: EntityFact): EntityFact {
    target.(
      symbol := if entity.symbol != "" then entity.symbol else target.symbol,
      symbolUnresolved :=
        if entity.symbol != "" then false
        else target.symbolUnresolved || (entity.symbolUnresolved && target.symbol == ""),
      typeDescriptor := if entity.typeDescriptor.Some? then entity.typeDescriptor else target.typeDescriptor,
      callability := if entity.callability.Some? then entity.callability else target.callability,
      runtimeIdentity := if entity.runtimeIdentity != "" then entity.runtimeIdentity else target.runtimeIdentity,
      runtimeValueDomain := if entity.runtimeValueDomain.Some? then entity.runtimeValueDomain else target.runtimeValueDomain,
      callResultDomain := if entity.callResultDomain.Some? then entity.callResultDomain else target.callResultDomain,
      tupleShape := if entity.tupleShape.Some? then entity.tupleShape else target.tupleShape,
      libraryTypes := if entity.libraryTypes != [] then entity.libraryTypes else target.libraryTypes)
  }

  /** Row `i` opens a new merged row. */
  predicate Opens(entities: seq<EntityFact>, i: nat)
    requires i < |entities|
  {
    i == 0 || entities[i].location != entities[i - 1].location
  }

  /** One merge step: rows of the last location merge into the last merged row. */
  function MergeStep(merged: seq<EntityFact>, entity: EntityFact): seq<EntityFact> {
    if |merged| > 0 && merged[|merged| - 1].location == entity.location
    then merged[|merged| - 1 := MergeInto(merged[|merged| - 1], entity)]
    else merged + [MergeInto(BareEntity(entity.location), entity)]
  }

  /** The merged rows of the first `n` aligned rows. */
  function Merged(entities: seq<EntityFact>, n: nat): seq<EntityFact>
    requires n <= |entities|
  {
    if n == 0 then [] else MergeStep(Merged(entities, n - 1), entities[n - 1])
  }

  /** The merged row that aligned row `i` belongs to: the openings seen before it. */
  function Slot(entities: seq<EntityFact>, i: nat): nat
    requires i < |entities|
  {
    if i == 0 then 0 else Slot(entities, i - 1) + (if Opens(entities, i) then 1 else 0)
  }

  /** The last value of a field present among rows `lo <= k < hi` of a slot. */
  function LastPresent(entities: seq<EntityFact>, slot: nat, hi: nat): SymbolID
    requires hi <= |entities|
  {
    if hi == 0 then ""
    else if Slot(entities, hi - 1) == slot && entities[hi - 1].symbol != "" then entities[hi - 1].symbol
    else LastPresent(entities, slot, hi - 1)
  }

  function FullTier(demands: seq<EntityDemand>, entities: seq<EntityFact>, n: nat): seq<nat>
    requires n <= |entities| == |demands|
  {
    if n == 0 then []
    else FullTier(demands, entities, n - 1)
         + (if entities[n - 1].symbol != "" && demands[n - 1].references then [Slot(entities, n - 1)] else [])
  }

  function Present(symbols: seq<SymbolID>, n: nat): seq<SymbolID>
    requires n <= |symbols|
  {
    if n == 0 then [] else Present(symbols, n - 1) + (if symbols[n - 1] != "" then [symbols[n - 1]] else [])
  }

  /** The symbols of merged rows a descriptor was demanded at, in demand order. */
  function DescriptorUses(demands: seq<EntityDemand>, entities: seq<EntityFact>, n: nat): seq<SymbolID>
    requires n <= |entities| == |demands|
  {
    if n == 0 then []
    else
      var before := DescriptorUses(demands, entities, n - 1);
      var rows := Merged(entities, |entities|);
      var slot := Slot(entities, n - 1);
      if demands[n - 1].typeDescriptor && slot < |rows| && rows[slot].symbol != ""
      then before + [rows[slot].symbol] else before
  }

  predicate Aligned(demands: seq<EntityDemand>, entities: seq<EntityFact>) {
    |demands| == |entities| && forall i :: 0 <= i < |demands| ==> entities[i].location == demands[i].location
  }

  /** Dependency paths are clean, non-empty, exclude their owner and strictly increase. */
  ghost predicate CanonicalDependencies(clean: string -> string, owner: Path, paths: seq<Path>) {
    && owner != "" && clean(owner) == owner
    && (forall i :: 0 <= i < |paths| ==> paths[i] != "" && clean(paths[i]) == paths[i] && paths[i] != owner)
    && StrictlyOrdered(paths)
  }

  ghost predicate Accepted(clean: string -> string, owner: Path, demands: seq<EntityDemand>, result: RunResult) {
    && |result.structural| == |demands|
    && Aligned(demands, result.entities)
    && CanonicalDependencies(clean, owner, result.dependencies)
  }

  /** The contribution an accepted result amounts to. */
  function Prepared(demands: seq<EntityDemand>, result: RunResult): Contribution
    requires |demands| == |result.entities|
  {
    Contribution(
      demands,
      Merged(result.entities, |result.entities|),
      FullTier(demands, result.entities, |demands|),
      Present(result.structural, |result.structural|),
      result.dependencies,
      Dedup(SortStrings(DescriptorUses(demands, result.entities, |demands|))),
      result.durable)
  }

  // --- what the merge means ---

  /** Slots count upward one opening at a time and name the merged row. */
  lemma {:induction false} SlotMeaning(entities: seq<EntityFact>, n: nat)
    requires 0 < n <= |entities|
    ensures |Merged(entities, n)| == Slot(entities, n - 1) + 1
    ensures Merged(entities, n)[Slot(entities, n - 1)].location == entities[n - 1].location
  {
    hide MergeStep, MergeInto;
    MergeStepMeaning(Merged(entities, n - 1), entities[n - 1]);
    if n > 1 { SlotMeaning(entities, n - 1); }
  }

  lemma {:induction false} SlotMonotone(entities: seq<EntityFact>, i: nat, j: nat)
    requires i <= j < |entities|
    ensures Slot(entities, i) <= Slot(entities, j)
  {
    if i < j { SlotMonotone(entities, i, j - 1); }
  }

  /** What one merge step does to the row count, the locations and the symbols. */
  lemma MergeStepMeaning(merged: seq<EntityFact>, entity: EntityFact)
    ensures var next := MergeStep(merged, entity);
      var opens := |merged| == 0 || merged[|merged| - 1].location != entity.location;
      && |next| == |merged| + (if opens then 1 else 0)
      && (forall k :: 0 <= k < |next| - 1 ==> k < |merged| && next[k] == merged[k])
      && next[|next| - 1].location == entity.location
      && (entity.symbol != "" ==> next[|next| - 1].symbol == entity.symbol)
      && (entity.symbol == "" ==> next[|next| - 1].symbol == if opens then "" else merged[|merged| - 1].symbol)
  {
  }

  /** Every aligned row lands in a merged row of its own location. */
  lemma {:induction false} MergedLocation(entities: seq<EntityFact>, n: nat, i: nat)
    requires i < n <= |entities|
    ensures Slot(entities, i) < |Merged(entities, n)|
    ensures Merged(entities, n)[Slot(entities, i)].location == entities[i].location
  {
    hide MergeStep, MergeInto, Opens;
    SlotMeaning(entities, n);
    if i < n - 1 {
      MergedLocation(entities, n - 1, i);
      MergeStepMeaning(Merged(entities, n - 1), entities[n - 1]);
      var before, after := Merged(entities, n - 1), Merged(entities, n);
      var slot := Slot(entities, i);
      if slot == |after| - 1 {
        assert |before| == |after|;
        assert before[slot].location == after[slot].location;
      } else {
        assert after[slot] == before[slot];
      }
    }
  }

  /** The merged symbol is the last one present among the rows of its slot. */
  lemma {:induction false} MergedSymbol(entities: seq<EntityFact>, n: nat, slot: nat)
    requires n <= |entities|
    ensures slot < |Merged(entities, n)| ==> Merged(entities, n)[slot].symbol == LastPresent(entities, slot, n)
    ensures |Merged(entities, n)| <= slot ==> LastPresent(entities, slot, n) == ""
  {
    hide MergeStep, MergeInto;
    if n > 0 {
      MergedSymbol(entities, n - 1, slot);
      SlotMeaning(entities, n);
      if n > 1 { SlotMeaning(entities, n - 1); }
      MergeStepMeaning(Merged(entities, n - 1), entities[n - 1]);
      var before, after := Merged(entities, n - 1), Merged(entities, n);
      if slot < |after| - 1 {
        assert after[slot] == before[slot];
      } else if slot == |after| - 1 {
        assert Slot(entities, n - 1) == slot;
      }
    }
  }

  /** Merging neither drops nor invents a location: merged rows are the openings, in order. */
  lemma {:induction false} MergedLocations(entities: seq<EntityFact>, n: nat, slot: nat) returns (i: nat)
    requires n <= |entities| && slot < |Merged(entities, n)|
    ensures i < n && Opens(entities, i) && Slot(entities, i) == slot
    ensures Merged(entities, n)[slot].location == entities[i].location
  {
    SlotMeaning(entities, n);
    if Slot(entities, n - 1) == slot && Opens(entities, n - 1) {
      i := n - 1;
    } else {
      SlotMeaning(entities, n - 1);
      i := MergedLocations(entities, n - 1, slot);
      MergedLocation(entities, n, i);
    }
  }

  lemma {:induction false} LastPresentNonEmpty(entities: seq<EntityFact>, i: nat, hi: nat)
    requires i < hi <= |entities| && entities[i].symbol != ""
    ensures LastPresent(entities, Slot(entities, i), hi) != ""
  {
    if i < hi - 1 { LastPresentNonEmpty(entities, i, hi - 1); }
  }

  /** Every full-tier index points at a merged row with a resolved symbol. */
  lemma {:induction false} FullTierResolved(demands: seq<EntityDemand>, entities: seq<EntityFact>, n: nat)
    requires n <= |entities| == |demands|
    ensures forall k :: k in FullTier(demands, entities, n) ==>
      k < |Merged(entities, |entities|)| && Merged(entities, |entities|)[k].symbol != ""
  {
    hide Merged, Slot, LastPresent;
    if n > 0 {
      FullTierResolved(demands, entities, n - 1);
      MergedSymbol(entities, |entities|, Slot(entities, n - 1));
      MergedLocation(entities, |entities|, n - 1);
      if entities[n - 1].symbol != "" { LastPresentNonEmpty(entities, n - 1, |entities|); }
    }
  }

  lemma {:induction false} FullTierComplete(demands: seq<EntityDemand>, entities: seq<EntityFact>, n: nat, i: nat)
    requires i < n <= |entities| == |demands|
    requires demands[i].references && entities[i].symbol != ""
    ensures Slot(entities, i) in FullTier(demands, entities, n)
  {
    hide Merged, Slot;
    if i < n - 1 { FullTierComplete(demands, entities, n - 1, i); }
  }

  ghost predicate UsesDescriptor(demands: seq<EntityDemand>, entities: seq<EntityFact>, n: nat, symbol: SymbolID)
    requires n <= |entities| == |demands|
  {
    symbol != "" && exists i :: 0 <= i < n && demands[i].typeDescriptor
                                && LastPresent(entities, Slot(entities, i), |entities|) == symbol
  }

  lemma {:induction false} DescriptorUsesMeaning(demands: seq<EntityDemand>, entities: seq<EntityFact>, n: nat, symbol: SymbolID)
    requires n <= |entities| == |demands|
    ensures symbol in DescriptorUses(demands, entities, n) <==> UsesDescriptor(demands, entities, n, symbol)
  {
    hide Merged, Slot, LastPresent;
    if n > 0 {
      DescriptorUsesMeaning(demands, entities, n - 1, symbol);
      MergedSymbol(entities, |entities|, Slot(entities, n - 1));
      MergedLocation(entities, |entities|, n - 1);
      assert UsesDescriptor(demands, entities, n, symbol) <==>
        UsesDescriptor(demands, entities, n - 1, symbol)
        || (symbol != "" && demands[n - 1].typeDescriptor && LastPresent(entities, Slot(entities, n - 1), |entities|) == symbol);
    }
  }

  /** Descriptor symbols are the strictly sorted symbols of the rows a descriptor was demanded at. */
  lemma DescriptorSymbolsMeaning(demands: seq<EntityDemand>, result: RunResult)
    requires |demands| == |result.entities|
    ensures StrictlyOrdered(Prepared(demands, result).descriptorSymbols)
    ensures forall symbol :: (symbol in Prepared(demands, result).descriptorSymbols)
                             == UsesDescriptor(demands, result.entities, |demands|, symbol)
  {
    var uses := DescriptorUses(demands, result.entities, |demands|);
    SortStringsMeaning(uses);
    DedupMeaning(SortStrings(uses));
    forall symbol
      ensures symbol in Dedup(SortStrings(uses)) <==> UsesDescriptor(demands, result.entities, |demands|, symbol)
    {
      DescriptorUsesMeaning(demands, result.entities, |demands|, symbol);
      assert symbol in SetOf(Dedup(SortStrings(uses))) <==> symbol in SetOf(uses);
    }
  }

  // --- every other field ---

  /** The last value of a field among the rows of a slot. */
  function LastField<T>(view: EntityFact -> Option<T>, entities: seq<EntityFact>, slot: nat, hi: nat): Option<T>
    requires hi <= |entities|
  {
    if hi == 0 then None
    else if Slot(entities, hi - 1) == slot && view(entities[hi - 1]).Some? then view(entities[hi - 1])
    else LastField(view, entities, slot, hi - 1)
  }

  /** A present value replaces, an absent one leaves. */
  ghost predicate Overrides<T(!new)>(view: EntityFact -> Option<T>) {
    && (forall location :: view(BareEntity(location)) == None)
    && (forall target, entity :: view(MergeInto(target, entity)) == if view(entity).Some? then view(entity) else view(target))
  }

  /** One merge step, seen through one field. */
  lemma StepField<T(!new)>(view: EntityFact -> Option<T>, merged: seq<EntityFact>, entity: EntityFact)
    requires Overrides(view)
    ensures var next := MergeStep(merged, entity);
      var opens := |merged| == 0 || merged[|merged| - 1].location != entity.location;
      && |next| == |merged| + (if opens then 1 else 0)
      && view(next[|next| - 1])
         == if view(entity).Some? then view(entity) else if opens then None else view(merged[|merged| - 1])
  {
    hide MergeInto, BareEntity;
  }

  lemma {:induction false} MergedField<T(!new)>(view: EntityFact -> Option<T>, entities: seq<EntityFact>, n: nat, slot: nat)
    requires n <= |entities| && Overrides(view)
    ensures slot < |Merged(entities, n)| ==> view(Merged(entities, n)[slot]) == LastField(view, entities, slot, n)
    ensures |Merged(entities, n)| <= slot ==> LastField(view, entities, slot, n) == None
  {
    hide MergeStep, MergeInto, Overrides;
    if n > 0 {
      MergedField(view, entities, n - 1, slot);
      SlotMeaning(entities, n);
      if n > 1 { SlotMeaning(entities, n - 1); }
      MergeStepMeaning(Merged(entities, n - 1), entities[n - 1]);
      StepField(view, Merged(entities, n - 1), entities[n - 1]);
      var before, after := Merged(entities, n - 1), Merged(entities, n);
      if slot < |after| - 1 {
        assert after[slot] == before[slot];
      } else if slot == |after| - 1 {
        assert Slot(entities, n - 1) == slot;
      }
    }
  }

  function DescriptorOf(entity: EntityFact): Option<TypeDescriptor> { entity.typeDescriptor }
  function CallabilityOf(entity: EntityFact): Option<Callability> { entity.callability }
  function IdentityOf(entity: EntityFact): Option<string> { if entity.runtimeIdentity != "" then Some(entity.runtimeIdentity) else None }
  function ValueDomainOf(entity: EntityFact): Option<RuntimeValueDomain> { entity.runtimeValueDomain }
  function ResultDomainOf(entity: EntityFact): Option<RuntimeValueDomain> { entity.callResultDomain }
  function ShapeOf(entity: EntityFact): Option<TupleShape> { entity.tupleShape }
  function LibraryTypesOf(entity: EntityFact): Option<seq<string>> { if entity.libraryTypes != [] then Some(entity.libraryTypes) else None }

  /** Each optional field of a merged row is the last one present among its rows, field by field. */
  lemma MergedFields(entities: seq<EntityFact>, slot: nat)
    requires slot < |Merged(entities, |entities|)|
    ensures var row, n := Merged(entities, |entities|)[slot], |entities|;
      && DescriptorOf(row) == LastField(DescriptorOf, entities, slot, n)
      && CallabilityOf(row) == LastField(CallabilityOf, entities, slot, n)
      && IdentityOf(row) == LastField(IdentityOf, entities, slot, n)
      && ValueDomainOf(row) == LastField(ValueDomainOf, entities, slot, n)
      && ResultDomainOf(row) == LastField(ResultDomainOf, entities, slot, n)
      && ShapeOf(row) == LastField(ShapeOf, entities, slot, n)
      && LibraryTypesOf(row) == LastField(LibraryTypesOf, entities, slot, n)
  {
    hide Merged, LastField;
    var n := |entities|;
    MergedField(DescriptorOf, entities, n, slot);
    MergedField(CallabilityOf, entities, n, slot);
    MergedField(IdentityOf, entities, n, slot);
    MergedField(ValueDomainOf, entities, n, slot);
    MergedField(ResultDomainOf, entities, n, slot);
    MergedField(ShapeOf, entities, n, slot);
    MergedField(LibraryTypesOf, entities, n, slot);
  }

  ghost predicate UnresolvedIn(entities: seq<EntityFact>, slot: nat, hi: nat)
    requires hi <= |entities|
  {
    exists k :: 0 <= k < hi && Slot(entities, k) == slot && entities[k].symbolUnresolved && entities[k].symbol == ""
  }

  /** A merged row is unresolved exactly when no row of its slot has a symbol and one is unresolved. */
  lemma {:induction false} MergedUnresolved(entities: seq<EntityFact>, n: nat, slot: nat)
    requires n <= |entities|
    ensures slot < |Merged(entities, n)| ==>
      (Merged(entities, n)[slot].symbolUnresolved <==> LastPresent(entities, slot, n) == "" && UnresolvedIn(entities, slot, n))
    ensures |Merged(entities, n)| <= slot ==> !UnresolvedIn(entities, slot, n)
  {
    hide MergeStep, MergeInto;
    if n > 0 {
      MergedUnresolved(entities, n - 1, slot);
      MergedSymbol(entities, n - 1, slot);
      SlotMeaning(entities, n);
      if n > 1 { SlotMeaning(entities, n - 1); }
      MergeStepMeaning(Merged(entities, n - 1), entities[n - 1]);
      StepUnresolved(Merged(entities, n - 1), entities[n - 1]);
      UnresolvedNext(entities, slot, n);
      var before, after := Merged(entities, n - 1), Merged(entities, n);
      if slot < |after| - 1 {
        assert after[slot] == before[slot];
      } else if slot == |after| - 1 {
        assert Slot(entities, n - 1) == slot;
      }
    }
  }

  lemma UnresolvedNext(entities: seq<EntityFact>, slot: nat, n: nat)
    requires 0 < n <= |entities|
    ensures UnresolvedIn(entities, slot, n)
         == (UnresolvedIn(entities, slot, n - 1) || (Slot(entities, n - 1) == slot && entities[n - 1].symbolUnresolved && entities[n - 1].symbol == ""))
  {
    hide Slot;
  }

  lemma StepUnresolved(merged: seq<EntityFact>, entity: EntityFact)
    ensures var next := MergeStep(merged, entity);
      var opens := |merged| == 0 || merged[|merged| - 1].location != entity.location;
      |next| == |merged| + (if opens then 1 else 0)
      && next[|next| - 1].symbolUnresolved == (entity.symbol == "" && (
           || (!opens && merged[|merged| - 1].symbolUnresolved)
           || (entity.symbolUnresolved && (opens || merged[|merged| - 1].symbol == ""))))
  {
  }

  // --- the in-place preparation ---

  /** Validates dependency paths in one pass. */
  method ValidateDependencies(clean: string -> string, owner: Path, paths: seq<Path>) returns (ok: bool)
    ensures ok == CanonicalDependencies(clean, owner, paths)
  {
    TotalOrder();
    if owner == "" || clean(owner) != owner { return false; }
    for index := 0 to |paths|
      invariant forall i :: 0 <= i < index ==> paths[i] != "" && clean(paths[i]) == paths[i] && paths[i] != owner
      invariant StrictlyOrdered(paths[..index])
    {
      var path := paths[index];
      if path == "" || clean(path) != path || path == owner {
        return false;
      }
      if index != 0 && !Less(paths[index - 1], path) {
        assert Less(paths[index - 1], path) <==> false;
        return false;
      }
      assert paths[..index + 1] == paths[..index] + [path];
    }
    assert paths[..|paths|] == paths;
    return true;
  }

  /** Merges aligned row `index` into the compacted rows before it. The write cursor
  never passes the read cursor, so the row is read before any merged row can take its slot. */
  method MergeRow(entities: array<EntityFact>, rowCount: nat, index: nat) returns (next: nat)
    requires rowCount <= index < entities.Length
    modifies entities
    ensures 1 <= next <= index + 1
    ensures entities[..next] == MergeStep(old(entities[..rowCount]), old(entities[index]))
    ensures forall k :: index < k < entities.Length ==> entities[k] == old(entities[k])
  {
    var entity := entities[index];
    if rowCount > 0 && entities[rowCount - 1].location == entity.location {
      entities[rowCount - 1] := MergeInto(entities[rowCount - 1], entity);
      next := rowCount;
    } else {
      entities[rowCount] := MergeInto(BareEntity(entity.location), entity);
      next := rowCount + 1;
    }
  }

  /** Keeps a present structural symbol in the compacted prefix. */
  method KeepPresent(structural: array<SymbolID>, symbolCount: nat, index: nat) returns (next: nat)
    requires symbolCount <= index < structural.Length
    modifies structural
    ensures next <= index + 1
    ensures structural[..next] ==
      old(structural[..symbolCount]) + (if old(structural[index]) != "" then [old(structural[index])] else [])
    ensures forall k :: index < k < structural.Length ==> structural[k] == old(structural[k])
  {
    next := symbolCount;
    if structural[index] != "" {
      structural[symbolCount] := structural[index];
      next := symbolCount + 1;
    }
  }

  /** What the compacted prefixes hold once `n` aligned rows have been read. */
  ghost predicate Compacted(
    rows: seq<EntityFact>, symbols: seq<SymbolID>, n: nat, entities: seq<EntityFact>, structural: seq<SymbolID>)
    requires n <= |rows| == |symbols|
  {
    entities == Merged(rows, n) && structural == Present(symbols, n)
  }

  lemma CompactedStep(
    rows: seq<EntityFact>, symbols: seq<SymbolID>, n: nat, entities: seq<EntityFact>, structural: seq<SymbolID>)
    requires n < |rows| == |symbols|
    requires Compacted(rows, symbols, n, entities, structural)
    ensures Compacted(rows, symbols, n + 1, MergeStep(entities, rows[n]), structural + (if symbols[n] != "" then [symbols[n]] else []))
    ensures |MergeStep(entities, rows[n])| == Slot(rows, n) + 1
  {
    hide MergeStep, Slot;
    SlotMeaning(rows, n + 1);
  }

  lemma CompactedStart(demands: seq<EntityDemand>, rows: seq<EntityFact>, symbols: seq<SymbolID>)
    requires |rows| == |symbols| == |demands|
    ensures Compacted(rows, symbols, 0, [], []) && FullTier(demands, rows, 0) == []
  {
  }

  lemma FullTierNext(demands: seq<EntityDemand>, rows: seq<EntityFact>, n: nat)
    requires n < |rows| == |demands|
    ensures FullTier(demands, rows, n + 1)
         == if rows[n].symbol != "" && demands[n].references then FullTier(demands, rows, n) + [Slot(rows, n)] else FullTier(demands, rows, n)
  {
  }

  /** One pass over both arrays; stops at the first row that is not at its demand's location. */
  method CompactRows(demands: seq<EntityDemand>, entities: array<EntityFact>, structural: array<SymbolID>)
    returns (aligned: bool, rowCount: nat, symbolCount: nat, fullTier: seq<nat>)
    requires entities as object != structural
    requires entities.Length == |demands| == structural.Length
    modifies entities, structural
    ensures aligned == Aligned(demands, old(entities[..]))
    ensures rowCount <= entities.Length && symbolCount <= structural.Length
    ensures aligned ==>
      Compacted(old(entities[..]), old(structural[..]), |demands|, entities[..rowCount], structural[..symbolCount])
    ensures aligned ==> fullTier == FullTier(demands, old(entities[..]), |demands|)
  {
    hide MergeStep, MergeInto, Compacted, FullTier, Slot;
    ghost var rows, symbols := entities[..], structural[..];
    rowCount, symbolCount, fullTier := 0, 0, [];
    CompactedStart(demands, rows, symbols);
    for index := 0 to |demands|
      invariant rowCount <= index && symbolCount <= index
      invariant Compacted(rows, symbols, index, entities[..rowCount], structural[..symbolCount])
      invariant forall k :: index <= k < |rows| ==> entities[k] == rows[k]
      invariant forall k :: index <= k < |symbols| ==> structural[k] == symbols[k]
      invariant fullTier == FullTier(demands, rows, index)
      invariant forall i :: 0 <= i < index ==> rows[i].location == demands[i].location
    {
      var entity := entities[index];
      if entity.location != demands[index].location {
        return false, rowCount, symbolCount, fullTier;
      }
      CompactedStep(rows, symbols, index, entities[..rowCount], structural[..symbolCount]);
      FullTierNext(demands, rows, index);
      rowCount := MergeRow(entities, rowCount, index);
      symbolCount := KeepPresent(structural, symbolCount, index);
      if entity.symbol != "" && demands[index].references {
        fullTier := fullTier + [rowCount - 1];
      }
    }
    aligned := true;
  }

  /** Prepares a contribution inside the arrays its demand-run result arrived in. */
  method Prepare(
    clean: string -> string, owner: Path, demands: seq<EntityDemand>,
    entities: array<EntityFact>, structural: array<SymbolID>, dependencies: seq<Path>, durable: bool)
    returns (result: Result<Contribution>)
    requires entities as object != structural
    modifies entities, structural
    ensures result.Ok? <==> Accepted(clean, owner, demands, RunResult(old(entities[..]), old(structural[..]), dependencies, durable))
    ensures result.Ok? ==>
      result.value == Prepared(demands, RunResult(old(entities[..]), old(structural[..]), dependencies, durable))
    ensures result.Ok? ==> |result.value.entities| <= entities.Length
    ensures result.Ok? ==> entities[..|result.value.entities|] == result.value.entities
  {
    ghost var rows := entities[..];
    if entities.Length != |demands| || structural.Length != |demands| {
      return Err("aligned row counts");
    }
    var canonical := ValidateDependencies(clean, owner, dependencies);
    if !canonical {
      return Err("dependency paths");
    }
    var aligned, rowCount, symbolCount, fullTier := CompactRows(demands, entities, structural);
    if !aligned {
      return Err("row location");
    }
    var descriptorSymbols := CollectDescriptorSymbols(demands, entities, rowCount, rows);
    result := Ok(Contribution(
      demands, entities[..rowCount], fullTier, structural[..symbolCount], dependencies, descriptorSymbols, durable));
  }

  lemma UsesStart(demands: seq<EntityDemand>, rows: seq<EntityFact>)
    requires |rows| == |demands|
    ensures DescriptorUses(demands, rows, 0) == []
  {
  }

  /** The slot of row `n`, and what its demand adds. */
  lemma UsesNext(demands: seq<EntityDemand>, rows: seq<EntityFact>, n: nat)
    requires Aligned(demands, rows) && n < |rows|
    ensures Slot(rows, n) == if n == 0 then 0
      else if demands[n].location != demands[n - 1].location then Slot(rows, n - 1) + 1 else Slot(rows, n - 1)
    ensures Slot(rows, n) < |Merged(rows, |rows|)|
    ensures var symbol := Merged(rows, |rows|)[Slot(rows, n)].symbol;
      DescriptorUses(demands, rows, n + 1)
      == if demands[n].typeDescriptor && symbol != "" then DescriptorUses(demands, rows, n) + [symbol] else DescriptorUses(demands, rows, n)
  {
    hide Merged;
    MergedLocation(rows, |rows|, n);
  }

  /** Walks the immutable demand run to recover row boundaries after the compaction. */
  method CollectDescriptorSymbols(
    demands: seq<EntityDemand>, entities: array<EntityFact>, rowCount: nat, ghost rows: seq<EntityFact>)
    returns (symbols: seq<SymbolID>)
    requires Aligned(demands, rows) && rowCount <= entities.Length
    requires entities[..rowCount] == Merged(rows, |rows|)
    ensures symbols == Dedup(SortStrings(DescriptorUses(demands, rows, |demands|)))
  {
    hide Merged, DescriptorUses, Slot, SortStrings, Dedup;
    var uses: seq<SymbolID> := [];
    var entityIndex := -1;
    UsesStart(demands, rows);
    for index := 0 to |demands|
      invariant uses == DescriptorUses(demands, rows, index)
      invariant index == 0 ==> entityIndex == -1
      invariant index > 0 ==> entityIndex == Slot(rows, index - 1)
    {
      if index == 0 || demands[index].location != demands[index - 1].location {
        entityIndex := entityIndex + 1;
      }
      MergedLocation(rows, |rows|, index);
      UsesNext(demands, rows, index);
      assert entityIndex == Slot(rows, index);
      assert entities[..rowCount][entityIndex] == entities[entityIndex];
      if demands[index].typeDescriptor {
        var symbol := entities[entityIndex].symbol;
        if symbol != "" {
          uses := uses + [symbol];
        }
      }
    }
    var sorted := SortStrings(uses);
    var scratch := new string[|sorted|](i requires 0 <= i < |sorted| => sorted[i]);
    assert scratch[..] == sorted;
    var write := CompactInPlace(scratch);
    symbols := scratch[..write];
  }
}
