/** Canonical demand runs (internal/typefacts/semantic_demand.go). */
module DemandRuns {
  import opened SortedRows
  import opened Facts
  import opened Oracles

  predicate Before(left: Location, right: Location) {
    left.startByte < right.startByte || (left.startByte == right.startByte && left.endByte < right.endByte)
  }

  ghost predicate OrderedRun(run: Run) {
    forall i, j :: 0 <= i < j < |run| ==> !Before(run[j].location, run[i].location)
  }

  function InsertDemand(demand: EntityDemand, run: Run): Run {
    if run == [] then [demand]
    else if Before(run[0].location, demand.location) then [run[0]] + InsertDemand(demand, run[1..])
    else [demand] + run
  }

  /** The library's stable sort by location. */
  function SortRun(run: Run): Run {
    if run == [] then [] else InsertDemand(run[0], SortRun(run[1..]))
  }

  function CleanDemand(clean: string -> string, demand: EntityDemand): EntityDemand {
    demand.(
      location := demand.location.(path := clean(demand.location.path)),
      query := if demand.query.Some? then Some(demand.query.value.(path := clean(demand.query.value.path))) else None)
  }

  function CleanRun(clean: string -> string, run: Run): Run {
    seq(|run|, i requires 0 <= i < |run| => CleanDemand(clean, run[i]))
  }

  /** The canonical form of a run: clean paths, locations in stable order. */
  function Canonical(clean: string -> string, run: Run): Run {
    SortRun(CleanRun(clean, run))
  }

  /** Demands at one location, in run order: what a stable sort must not disturb. */
  function AtLocation(run: Run, startByte: int, endByte: int): Run {
    if run == [] then []
    else (if run[0].location.startByte == startByte && run[0].location.endByte == endByte then [run[0]] else [])
         + AtLocation(run[1..], startByte, endByte)
  }

  function Here(demand: EntityDemand, startByte: int, endByte: int): Run {
    if demand.location.startByte == startByte && demand.location.endByte == endByte then [demand] else []
  }

  lemma AtLocationCons(demand: EntityDemand, run: Run, startByte: int, endByte: int)
    ensures AtLocation([demand] + run, startByte, endByte) == Here(demand, startByte, endByte) + AtLocation(run, startByte, endByte)
  {
    assert ([demand] + run)[1..] == run;
  }

  lemma {:induction false} InsertOrdered(demand: EntityDemand, run: Run)
    requires OrderedRun(run)
    ensures OrderedRun(InsertDemand(demand, run))
    ensures multiset(InsertDemand(demand, run)) == multiset{demand} + multiset(run)
  {
    if run == [] || !Before(run[0].location, demand.location) {
      assert InsertDemand(demand, run) == [demand] + run;
      assert run != [] ==> forall i :: 0 <= i < |run| ==> !Before(run[i].location, run[0].location);
    } else {
      InsertOrdered(demand, run[1..]);
      var rest := InsertDemand(demand, run[1..]);
      assert run == [run[0]] + run[1..];
      assert InsertDemand(demand, run) == [run[0]] + rest;
      forall i | 0 <= i < |rest| ensures !Before(rest[i].location, run[0].location) {
        assert rest[i] in multiset(rest);
        assert rest[i] == demand || rest[i] in run[1..];
      }
    }
  }

  lemma {:induction false} InsertStable(demand: EntityDemand, run: Run, startByte: int, endByte: int)
    ensures AtLocation(InsertDemand(demand, run), startByte, endByte)
      == Here(demand, startByte, endByte) + AtLocation(run, startByte, endByte)
  {
    if run == [] || !Before(run[0].location, demand.location) {
      assert InsertDemand(demand, run) == [demand] + run;
      AtLocationCons(demand, run, startByte, endByte);
    } else {
      InsertStable(demand, run[1..], startByte, endByte);
      assert run == [run[0]] + run[1..];
      AtLocationCons(run[0], run[1..], startByte, endByte);
      AtLocationCons(run[0], InsertDemand(demand, run[1..]), startByte, endByte);
    }
  }

  /** The sort is an ordered permutation that keeps the order of demands at one location. */
  lemma {:induction false} SortRunMeaning(run: Run, startByte: int, endByte: int)
    ensures OrderedRun(SortRun(run))
    ensures multiset(SortRun(run)) == multiset(run)
    ensures AtLocation(SortRun(run), startByte, endByte) == AtLocation(run, startByte, endByte)
  {
    if run != [] {
      assert run == [run[0]] + run[1..];
      SortRunMeaning(run[1..], startByte, endByte);
      InsertOrdered(run[0], SortRun(run[1..]));
      InsertStable(run[0], SortRun(run[1..]), startByte, endByte);
      AtLocationCons(run[0], run[1..], startByte, endByte);
    }
  }

  /** An already ordered run is left exactly as it is. */
  lemma {:induction false} SortRunOrdered(run: Run)
    requires OrderedRun(run)
    ensures SortRun(run) == run
  {
    if run != [] {
      SortRunOrdered(run[1..]);
      assert run == [run[0]] + run[1..];
      if |run| > 1 { assert !Before(run[1].location, run[0].location); }
    }
  }

  ghost predicate Idempotent(clean: string -> string) {
    forall path :: clean(clean(path)) == clean(path)
  }

  /** Borrows an already canonical run and copies only a dirty or unordered one. */
  method CanonicalDemandRun(clean: string -> string, path: Path, run: Run) returns (canonical: Run)
    requires Idempotent(clean) && clean(path) == path
    ensures canonical == Canonical(clean, run)
  {
    var copyRequired, ordered := false, true;
    for index := 0 to |run|
      invariant !copyRequired ==> CleanRun(clean, run[..index]) == run[..index]
      invariant ordered ==> OrderedRun(run[..index])
    {
      var demand := run[index];
      if demand.location.path != path && clean(demand.location.path) != demand.location.path {
        copyRequired := true;
      }
      if demand.query.Some? && demand.query.value.path != path && clean(demand.query.value.path) != demand.query.value.path {
        copyRequired := true;
      }
      if index > 0 && Before(demand.location, run[index - 1].location) {
        ordered := false;
      }
      assert run[..index + 1] == run[..index] + [demand];
    }
    assert run[..|run|] == run;
    if !copyRequired && ordered {
      SortRunOrdered(run);
      return run;
    }
    canonical := CleanRun(clean, run);
    if !ordered {
      canonical := SortRun(canonical);
    } else {
      forall i, j | 0 <= i < j < |canonical| ensures !Before(canonical[j].location, canonical[i].location) {
        assert !Before(run[j].location, run[i].location);
      }
      SortRunOrdered(canonical);
    }
  }
}
